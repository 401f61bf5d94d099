/** The append loop of a follower over its stored records, whatever indexes the entries carry. */
module Records {
  import opened Bank
  import opened NodeSpec
  import opened Store
  import opened Compaction

  /** The log records, the stored last index, and the last index and term kept in RAM. */
  datatype Disk = Disk(logs: map<nat, Entry>, stored: nat, last: nat, lastTerm: nat)

  /** RAM and storage agree, and nothing is stored outside 1..last. */
  predicate InStep(d: Disk) {
    && d.last == d.stored && d.lastTerm == TermOf(d.logs, d.last)
    && forall k :: k in d.logs ==> 1 <= k <= d.last
  }

  /** The log as the node reads it. */
  function Reads(d: Disk): Log { LogOf(d.logs, d.last) }

  /** One turn of the loop. Position and record are told apart: the loop counts positions from
      prevLogIndex, while an entry is stored under the index it carries. */
  function Took(d: Disk, index: nat, e: Entry): Disk {
    if index <= d.last && TermOf(d.logs, index) == e.term then d
    else
      var kept := if index <= d.last then Without(d.logs, index, d.stored) else d.logs;
      Disk(kept[e.index := e], e.index, index, e.term)
  }

  function TookAll(d: Disk, prev: nat, entries: Log): Disk
    decreases |entries|
  {
    if entries == [] then d else TookAll(Took(d, prev + 1, entries[0]), prev + 1, entries[1..])
  }

  /** The entries carry consecutive indexes from `from` on. */
  predicate NumberedFrom(entries: Log, from: nat) {
    forall k :: 0 <= k < |entries| ==> entries[k].index == from + k
  }

  // ---------- contiguous messages ----------

  /** One turn on a log. */
  function Turn(x: Log, index: nat, e: Entry): Log
    requires 1 <= index <= |x| + 1
  {
    if index <= |x| && x[index - 1].term == e.term then x else x[..index - 1] + [e]
  }

  lemma TookReads(d: Disk, index: nat, e: Entry)
    requires InStep(d) && 1 <= index <= d.last + 1 && e.index == index
    ensures InStep(Took(d, index, e)) && index <= Took(d, index, e).last
    ensures Reads(Took(d, index, e)) == Turn(Reads(d), index, e)
  {
  }

  /** Entries numbered from prevLogIndex + 1 leave RAM and storage in step, and the log they make is the splice. */
  lemma {:induction false} TookAllReads(d: Disk, prev: nat, entries: Log)
    requires InStep(d) && prev <= d.last && NumberedFrom(entries, prev + 1)
    ensures InStep(TookAll(d, prev, entries)) && TookAll(d, prev, entries).last >= prev + |entries|
    ensures Reads(TookAll(d, prev, entries)) == Splice(Reads(d), prev, entries)
    decreases |entries|
  {
    if entries != [] {
      TookReads(d, prev + 1, entries[0]);
      TookAllReads(Took(d, prev + 1, entries[0]), prev + 1, entries[1..]);
    }
  }

  // ---------- what compaction leaves ----------

  /** Everything above applied - 100 is still stored: what compaction leaves on a node that never
      installed a snapshot. */
  predicate Retained(logs: map<nat, Entry>, last: nat, applied: nat) {
    && (forall k :: k in logs ==> 1 <= k <= last && logs[k].index == k)
    && (forall k :: 1 <= k <= last && k + 100 > applied ==> k in logs)
  }

  /** How far applying the entry at an index compacts the log. */
  function CompactedBy(index: nat): nat {
    if index % 1000 == 0 && index > 100 then index - 100 else 0
  }

  /** How far applying n entries after lastApplied compacts it. */
  function CompactedFrom(applied: nat, n: nat): (c: nat)
    ensures c == 0 || c + 100 <= applied + n
  {
    if n == 0 then 0 else Max(CompactedFrom(applied, n - 1), CompactedBy(applied + n))
  }

  /** What is retained is enough: the executor's next entries, the last term read at boot and the term a
      snapshot carries are all read from entries that are there. */
  lemma RetainedServes(logs: map<nat, Entry>, last: nat, applied: nat, commit: nat)
    requires Retained(logs, last, applied) && applied <= commit <= last
    ensures forall k :: applied < k <= commit ==> k in logs && logs[k].index == k
    ensures last >= 1 ==> last in logs && TermOf(logs, last) == logs[last].term
    ensures applied >= 1 ==> applied in logs && TermOf(logs, applied) == logs[applied].term
  {
  }

  /** Whatever was retained still is. */
  ghost predicate KeepsRetained(d: Disk, d': Disk) {
    forall a: nat :: Retained(d.logs, d.last, a) ==> Retained(d'.logs, d'.last, a)
  }

  lemma {:induction false} TookAllRetained(d: Disk, prev: nat, entries: Log)
    requires InStep(d) && prev <= d.last && NumberedFrom(entries, prev + 1)
    ensures KeepsRetained(d, TookAll(d, prev, entries))
    decreases |entries|
  {
    if entries != [] {
      TookReads(d, prev + 1, entries[0]);
      TookAllRetained(Took(d, prev + 1, entries[0]), prev + 1, entries[1..]);
    }
  }

  /** An entry the loop looks at removes a stored record if and only if that record is above it and the
      entry's own index is not stored with the same term. */
  lemma RemovesIff(d: Disk, index: nat, e: Entry, k: nat)
    requires InStep(d) && k in d.logs && k != index && e.index == index
    ensures k !in Took(d, index, e).logs <==> index < k && TermOf(d.logs, index) != e.term
  {
  }

  /** With full logs a redelivered message of the same leader removes nothing it agrees with. After
      compaction it does: once record 1 is gone, any message from the beginning, delivered again, leaves
      its own entries and nothing else. */
  lemma RedeliveryAfterCompaction(d: Disk, entries: Log)
    requires InStep(d) && d.last >= 1 && 1 !in d.logs
    requires entries != [] && NumberedFrom(entries, 1) && Live(entries)
    ensures InStep(TookAll(d, 0, entries)) && Reads(TookAll(d, 0, entries)) == entries
  {
    TookAllReads(d, 0, entries);
    assert Reads(d)[0] == MISSING;
    assert Reads(d)[..0] + entries == entries;
  }

  // ---------- messages that are not contiguous ----------

  predicate Same(x: map<nat, Entry>, y: map<nat, Entry>, k: nat) {
    (k in x <==> k in y) && GetLogEntry(x, k) == GetLogEntry(y, k)
  }

  /** Above its last position a follower stores every entry, under the index the entry carries. */
  lemma {:induction false} TookPast(d: Disk, entries: Log, from: nat)
    requires entries != [] && NumberedFrom(entries, from)
    ensures var d' := TookAll(d, d.last, entries);
            && d'.last == d.last + |entries| && d'.stored == from + |entries| - 1
            && d'.lastTerm == entries[|entries| - 1].term
            && (forall k :: 0 <= k < |entries| ==> GetLogEntry(d'.logs, from + k) == entries[k])
            && (forall k: nat {:trigger Same(d'.logs, d.logs, k)} ::
                  k < from || k >= from + |entries| ==> Same(d'.logs, d.logs, k))
    decreases |entries|
  {
    var d1 := Took(d, d.last + 1, entries[0]);
    var rest := entries[1..];
    assert d1 == Disk(d.logs[from := entries[0]], from, d.last + 1, entries[0].term);
    if rest != [] {
      TookPast(d1, rest, from + 1);
      var d' := TookAll(d1, d1.last, rest);
      assert d' == TookAll(d, d.last, entries);
      assert Same(d'.logs, d1.logs, from);
      forall k | 0 <= k < |entries| ensures GetLogEntry(d'.logs, from + k) == entries[k] {
        assert k > 0 ==> GetLogEntry(d'.logs, from + 1 + (k - 1)) == rest[k - 1];
      }
      forall k: nat | k < from || k >= from + |entries| ensures Same(d'.logs, d.logs, k) {
        assert Same(d'.logs, d1.logs, k);
      }
    }
  }
}
