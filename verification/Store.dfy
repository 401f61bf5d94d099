/** The node's database: what is on disk, and the cached last log index. */
module Store {
  import opened Text
  import opened Bank
  import opened SnapshotText
  import Conservation

  /** What survives a restart. Log records are keyed by index; see Text.LogKeyInjective. */
  datatype DB = DB(
    logs: map<nat, Entry>,
    lastLogIndex: nat,
    term: nat,
    vote: int,
    accounts: map<string, int>,
    results: map<string, Outcome>,
    lastApplied: nat,
    snapshotIndex: nat,
    snapshotTerm: nat)

  datatype SnapshotData = SnapshotData(lastIndex: nat, lastTerm: nat, data: string)

  function GetLogEntry(logs: map<nat, Entry>, index: nat): Entry {
    if index in logs then logs[index] else MISSING
  }

  function TermOf(logs: map<nat, Entry>, index: nat): nat { GetLogEntry(logs, index).term }

  /** What reading the records 1..n yields. */
  function LogOf(logs: map<nat, Entry>, n: nat): seq<Entry> {
    seq(n, k requires 0 <= k < n => GetLogEntry(logs, k + 1))
  }

  function Without(logs: map<nat, Entry>, lo: int, hi: int): map<nat, Entry> {
    map k | k in logs && !(lo <= k <= hi) :: logs[k]
  }

  /** The balances that a snapshot text holds. */
  function Restored(data: string): map<string, int> {
    Balances(PutAll(map[], Parse(data)))
  }

  function PutEntries(logs: map<nat, Entry>, entries: seq<Entry>): map<nat, Entry> {
    if entries == [] then logs
    else PutEntries(logs, entries[..|entries| - 1])[entries[|entries| - 1].index := entries[|entries| - 1]]
  }

  function MaxIndex(start: nat, entries: seq<Entry>): nat {
    if entries == [] then start
    else
      var m := MaxIndex(start, entries[..|entries| - 1]);
      if entries[|entries| - 1].index > m then entries[|entries| - 1].index else m
  }

  /** No later entry carries the same index. */
  predicate LastOfIndex(entries: seq<Entry>, i: nat)
    requires i < |entries|
  {
    forall j :: i < j < |entries| ==> entries[j].index != entries[i].index
  }

  /** A batch leaves an index it does not carry as it was. */
  lemma {:induction false} BatchKeeps(logs: map<nat, Entry>, entries: seq<Entry>, k: nat)
    requires forall i :: 0 <= i < |entries| ==> entries[i].index != k
    ensures GetLogEntry(PutEntries(logs, entries), k) == GetLogEntry(logs, k)
  {
    if entries != [] {
      BatchKeeps(logs, entries[..|entries| - 1], k);
    }
  }

  /** Under an index it carries it leaves the last of its entries with that index. */
  lemma {:induction false} BatchStores(logs: map<nat, Entry>, entries: seq<Entry>, i: nat)
    requires i < |entries| && LastOfIndex(entries, i)
    ensures entries[i].index in PutEntries(logs, entries) && PutEntries(logs, entries)[entries[i].index] == entries[i]
  {
    var front := entries[..|entries| - 1];
    if i < |front| {
      assert front[i] == entries[i] && entries[|entries| - 1].index != entries[i].index;
      forall j | i < j < |front| ensures front[j].index != front[i].index {
        assert front[j] == entries[j];
      }
      BatchStores(logs, front, i);
    }
  }

  /** The last index after a batch is the greatest of the old one and those of the batch. */
  lemma {:induction false} BatchLast(start: nat, entries: seq<Entry>)
    ensures MaxIndex(start, entries) >= start
    ensures forall i :: 0 <= i < |entries| ==> MaxIndex(start, entries) >= entries[i].index
    ensures MaxIndex(start, entries) == start ||
            exists i :: 0 <= i < |entries| && entries[i].index == MaxIndex(start, entries)
  {
    if entries != [] {
      var front := entries[..|entries| - 1];
      BatchLast(start, front);
      assert forall i :: 0 <= i < |front| ==> front[i] == entries[i];
      if MaxIndex(start, front) != start && MaxIndex(start, entries) == MaxIndex(start, front) {
        var i :| 0 <= i < |front| && front[i].index == MaxIndex(start, front);
        assert entries[i].index == MaxIndex(start, entries);
      }
    }
  }

  class RocksDBStore {
    var db: DB
    var cache: nat

    /** The cache always equals the stored last index. */
    ghost predicate Valid()
      reads this
    {
      cache == db.lastLogIndex
    }

    constructor Open(disk: DB)
      ensures Valid() && db == disk
    {
      db := disk;
      cache := disk.lastLogIndex;
    }

    method InitializeGenesisData()
      modifies this
      ensures cache == old(cache)
      ensures "1" in old(db).accounts ==> db == old(db)
      ensures "1" !in old(db).accounts ==>
                db == old(db).(accounts := old(db).accounts + Conservation.GenesisUpTo(Conservation.GENESIS_ACCOUNTS))
    {
      if "1" in db.accounts {
        return;
      }
      var batch: map<string, int> := map[];
      for i := 1 to Conservation.GENESIS_ACCOUNTS + 1
        invariant batch == Conservation.GenesisUpTo(i - 1)
        invariant db == old(db) && cache == old(cache)
      {
        batch := batch[Decimal(i) := Conservation.GENESIS_BALANCE];
      }
      db := db.(accounts := db.accounts + batch);
    }

    method SaveHardState(term: nat, vote: int)
      modifies this
      ensures db == old(db).(term := term, vote := vote) && cache == old(cache)
    {
      db := db.(term := term, vote := vote);
    }

    method AppendLog(e: Entry)
      modifies this
      ensures db == old(db).(logs := old(db).logs[e.index := e], lastLogIndex := e.index) && cache == e.index
    {
      db := db.(logs := db.logs[e.index := e], lastLogIndex := e.index);
      cache := e.index;
    }

    /** The batch form: the last index becomes the greatest one seen and never goes down. */
    method AppendLogs(entries: seq<Entry>)
      requires Valid()
      modifies this
      ensures Valid() && cache == MaxIndex(old(cache), entries)
      ensures db == old(db).(logs := PutEntries(old(db).logs, entries), lastLogIndex := cache)
    {
      if entries == [] {
        return;
      }
      var logs := db.logs;
      var top := cache;
      for k := 0 to |entries|
        invariant logs == PutEntries(old(db).logs, entries[..k]) && top == MaxIndex(old(cache), entries[..k])
        invariant db == old(db) && cache == old(cache)
      {
        assert entries[..k + 1][..k] == entries[..k];
        logs := logs[entries[k].index := entries[k]];
        if entries[k].index > top {
          top := entries[k].index;
        }
      }
      assert entries[..|entries|] == entries;
      db := db.(logs := logs, lastLogIndex := top);
      cache := top;
    }

    /** Deletes the records from start up to the cached last index, which then becomes start - 1, even
        when that is higher than it was. */
    method TruncateLog(start: nat)
      requires start >= 1
      modifies this
      ensures Valid() && cache == start - 1
      ensures db == old(db).(logs := Without(old(db).logs, start, old(cache)), lastLogIndex := start - 1)
    {
      var i := start;
      while i <= cache
        invariant start <= i && (i <= cache + 1 || i == start)
        invariant db == old(db).(logs := Without(old(db).logs, start, i - 1)) && cache == old(cache)
      {
        db := db.(logs := map k | k in db.logs && k != i :: db.logs[k]);
        i := i + 1;
      }
      assert Without(old(db).logs, start, i - 1) == Without(old(db).logs, start, old(cache));
      cache := start - 1;
      db := db.(lastLogIndex := cache);
    }

    /** Deletes the records up to an index; the last index does not move. */
    method CompactLog(upTo: int)
      modifies this
      ensures db == old(db).(logs := Without(old(db).logs, 0, upTo)) && cache == old(cache)
    {
      var i := 0;
      while i <= upTo
        invariant 0 <= i && (i <= upTo + 1 || i == 0)
        invariant db == old(db).(logs := Without(old(db).logs, 0, i - 1)) && cache == old(cache)
      {
        db := db.(logs := map k | k in db.logs && k != i :: db.logs[k]);
        i := i + 1;
      }
      assert Without(old(db).logs, 0, i - 1) == Without(old(db).logs, 0, upTo);
    }

    /** One atomic write: new balances, the result, and lastApplied. */
    method ApplyTransaction(e: Entry, senderNew: int, receiverNew: int, message: string)
      modifies this
      ensures cache == old(cache)
      ensures db == old(db).(accounts := Written(old(db).accounts, e.cmd, senderNew, receiverNew),
                             results := old(db).results[e.cmd.requestId := Outcome(message, e.index)],
                             lastApplied := e.index)
    {
      var accounts := db.accounts;
      if senderNew >= 0 {
        accounts := accounts[e.cmd.sender := senderNew];
      }
      if receiverNew >= 0 {
        accounts := accounts[e.cmd.receiver := receiverNew];
      }
      db := db.(accounts := accounts, results := db.results[e.cmd.requestId := Outcome(message, e.index)],
            lastApplied := e.index);
    }

    /** The dump of the state machine at lastApplied, from a scan of the whole database. */
    method CreateSnapshot(scan: seq<Record>) returns (snap: SnapshotData)
      requires ScanOf(scan, db.accounts, db.results.Keys)
      ensures snap.lastIndex == db.lastApplied && snap.lastTerm == TermOf(db.logs, db.lastApplied)
      ensures snap.data == Print(StateRecords(scan))
    {
      var data := WriteRecords(scan);
      snap := SnapshotData(db.lastApplied, TermOf(db.logs, db.lastApplied), data);
    }

    /** Clears the state machine and writes what the text holds. `decoded` is what the request records
        decode to. */
    method ApplySnapshot(data: string, lastIndex: nat, lastTerm: nat, decoded: map<string, Outcome>)
      modifies this
      ensures cache == old(cache)
      ensures db == old(db).(accounts := Restored(data), results := decoded,
                             lastApplied := lastIndex, snapshotIndex := lastIndex, snapshotTerm := lastTerm)
    {
      var m := ReadRecords(data, map[]);
      db := db.(accounts := Balances(m), results := decoded,
                lastApplied := lastIndex, snapshotIndex := lastIndex, snapshotTerm := lastTerm);
    }
  }
}
