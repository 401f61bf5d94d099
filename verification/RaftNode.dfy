/** The node as an object over its database. Each method is one critical section of the source and is
    proved to do what NodeSpec says, while what is in RAM stays equal to what a restart would load. */
module Raft {
  import opened Quorum
  import opened Bank
  import opened NodeSpec
  import opened SnapshotText
  import opened Store
  import opened Compaction
  import opened Records

  /** What applying the entries of `done` after lastApplied makes of the state machine and the records. */
  ghost predicate Carried(b0: Bank, d0: Disk, applied: nat, done: Log, b: Bank, d: Disk) {
    && b == Fold(b0, done) && d.last == d0.last
    && Reads(d) == Cut(Reads(d0), CompactedFrom(applied, |done|))
    && (Retained(d0.logs, d0.last, applied) ==> Retained(d.logs, d.last, applied + |done|))
  }

  lemma CarriedOn(b0: Bank, d0: Disk, applied: nat, batch: Log, k: nat, b: Bank, d: Disk, b': Bank, d': Disk)
    requires k < |batch| && batch[k].index == applied + 1 + k && Carried(b0, d0, applied, batch[..k], b, d)
    requires b' == Apply(b, batch[k]) && d'.last == d.last && Reads(d') == Cut(Reads(d), CompactedBy(batch[k].index))
    requires Retained(d.logs, d.last, applied + k) ==> Retained(d'.logs, d'.last, applied + k + 1)
    ensures Carried(b0, d0, applied, batch[..k + 1], b', d')
  {
    FoldStep(b0, batch, k);
    CutTwice(Reads(d0), CompactedFrom(applied, k), CompactedBy(applied + k + 1));
  }

  /** Executing it moves no money, and it carries the snapshot's own index and term. */
  lemma AnchorHarmless(b: Bank, lastIndex: nat, snapTerm: nat)
    ensures Apply(b, Anchor(lastIndex, snapTerm)).accounts == b.accounts
    ensures Anchor(lastIndex, snapTerm).index == lastIndex && Anchor(lastIndex, snapTerm).term == snapTerm
  {
  }

  /** A node's place in the elections and its leader tables. */
  datatype Standing = Standing(
    term: nat, role: Role, votedFor: int, granted: set<NodeId>, next: map<NodeId, nat>, matched: map<NodeId, nat>)

  /** What hearing of a term does and nothing else: a later one makes a follower without a vote. */
  predicate StandsDown(x: Standing, y: Standing, term: nat) {
    y == if term > x.term then x.(term := term, role := FOLLOWER, votedFor := NO_VOTE) else x
  }

  predicate SameEntry(x: map<NodeId, nat>, y: map<NodeId, nat>, p: NodeId) {
    (p in x <==> p in y) && (p in x ==> x[p] == y[p])
  }

  /** The entry that stands for an installed snapshot. */
  function Anchor(lastIndex: nat, snapTerm: nat): Entry {
    Entry(snapTerm, lastIndex, Command("SNAPSHOT_ANCHOR", GET_BALANCE, "SYSTEM_ANCHOR", "", 0))
  }

  class RaftNode {
    const c: Config
    const id: NodeId
    const store: RocksDBStore

    var currentTerm: nat
    var votedFor: int
    var lastLogIndex: nat
    var lastLogTerm: nat
    var role: Role
    var votesReceived: nat
    ghost var granted: set<NodeId>
    var commitIndex: nat
    var lastApplied: nat
    var nextIndex: map<NodeId, nat>
    var matchIndex: map<NodeId, nat>
    var replicationActive: set<NodeId>

    /** RAM and storage agree. */
    ghost predicate Valid()
      reads this, store
    {
      && store.Valid() && id in c.nodes
      && currentTerm == store.db.term && votedFor == store.db.vote
      && InStep(OnDisk())
      && lastApplied == store.db.lastApplied
      && votesReceived == |granted|
      && nextIndex.Keys <= c.Listed(id) && matchIndex.Keys <= c.Listed(id)
    }

    ghost function OnDisk(): Disk
      reads this, store
    {
      Disk(store.db.logs, store.cache, lastLogIndex, lastLogTerm)
    }

    ghost function Place(): Standing
      reads this
    {
      Standing(currentTerm, role, votedFor, granted, nextIndex, matchIndex)
    }

    /** The node as NodeSpec sees it, with its log as it reads it: compacted records are MISSING. Threads
        and the fetched batch are not fields of the object. */
    ghost function View(): Node
      reads this, store
    {
      Node(id, currentTerm, votedFor, LogOf(store.db.logs, lastLogIndex), role, granted, commitIndex, nextIndex,
           matchIndex, replicationActive, map[], lastApplied, Bank(store.db.accounts, store.db.results), [])
    }

    /** Boot: everything comes from the database or starts empty. */
    constructor (c: Config, id: NodeId, store: RocksDBStore)
      requires store.Valid() && id in c.nodes && forall k :: k in store.db.logs ==> 1 <= k <= store.cache
      ensures Valid() && this.c == c && this.id == id && this.store == store
      ensures currentTerm == store.db.term && votedFor == store.db.vote && lastLogIndex == store.cache
      ensures lastApplied == store.db.lastApplied
      ensures role == FOLLOWER && commitIndex == 0 && nextIndex == map[] && matchIndex == map[]
      ensures replicationActive == {} && granted == {}
    {
      this.c, this.id, this.store := c, id, store;
      currentTerm, votedFor := store.db.term, store.db.vote;
      lastLogIndex := store.cache;
      lastLogTerm := if store.cache > 0 then TermOf(store.db.logs, store.cache) else 0;
      role := FOLLOWER;
      votesReceived, granted := 0, {};
      commitIndex := 0;
      lastApplied := store.db.lastApplied;
      nextIndex, matchIndex, replicationActive := map[], map[], {};
    }

    // ---------- elections ----------

    method BecomeFollower(term: nat)
      requires Valid()
      modifies this, store
      ensures Valid() && store.db == old(store.db).(term := term, vote := NO_VOTE)
      ensures View() == NodeSpec.BecomeFollower(old(View()), term)
      ensures lastLogIndex == old(lastLogIndex) && lastApplied == old(lastApplied) && commitIndex == old(commitIndex)
      ensures currentTerm == term && role == FOLLOWER && lastLogTerm == old(lastLogTerm)
    {
      role := FOLLOWER;
      currentTerm := term;
      votedFor := NO_VOTE;
      store.SaveHardState(currentTerm, votedFor);
    }

    method StartElection() returns (term: nat, lastIndex: nat, lastTerm: nat)
      requires Valid()
      modifies this, store
      ensures Valid()
      ensures term == currentTerm == old(currentTerm) + 1 && lastIndex == lastLogIndex && lastTerm == lastLogTerm
      ensures View() == NodeSpec.StartElection(old(View()))
      ensures lastIndex == |View().log| && lastTerm == LastTerm(View().log)
    {
      role := CANDIDATE;
      currentTerm := currentTerm + 1;
      votedFor := id;
      votesReceived, granted := 1, {id};
      store.SaveHardState(currentTerm, votedFor);
      term, lastIndex, lastTerm := currentTerm, lastLogIndex, lastLogTerm;
    }

    method HandleRequestVote(term: nat, candidate: NodeId, lastIndex: nat, lastTerm: nat)
          returns (replyTerm: nat, ok: bool)
      requires Valid()
      modifies this, store
      ensures Valid() && currentTerm >= old(currentTerm)
      ensures Verdict(View(), replyTerm, ok) == HandleVote(old(View()), term, candidate, lastIndex, lastTerm)
    {
      if term < currentTerm {
        return currentTerm, false;
      }
      if term > currentTerm {
        BecomeFollower(term);
      }
      var canVote := votedFor == NO_VOTE || votedFor == candidate;
      var upToDate := false;
      if lastTerm > lastLogTerm {
        upToDate := true;
      } else if lastTerm == lastLogTerm && lastIndex >= lastLogIndex {
        upToDate := true;
      }
      ok := false;
      if canVote && upToDate {
        votedFor := candidate;
        store.SaveHardState(currentTerm, votedFor);
        ok := true;
      }
      replyTerm := currentTerm;
    }

    /** The loop of becomeLeader over the listed members. */
    method InitTables(last: nat, next0: map<NodeId, nat>, matched0: map<NodeId, nat>)
          returns (next: map<NodeId, nat>, matched: map<NodeId, nat>)
      requires next0.Keys <= c.Listed(id) && matched0.Keys <= c.Listed(id)
      ensures next == map p | p in c.Listed(id) :: last + 1
      ensures matched == map p | p in c.Listed(id) :: 0
    {
      next, matched := next0, matched0;
      var rest := c.Listed(id);
      while rest != {}
        invariant rest <= c.Listed(id) && next.Keys <= c.Listed(id) && matched.Keys <= c.Listed(id)
        invariant forall p :: p in c.Listed(id) - rest ==> p in next && next[p] == last + 1
        invariant forall p :: p in c.Listed(id) - rest ==> p in matched && matched[p] == 0
        decreases rest
      {
        var p :| p in rest;
        next := next[p := last + 1];
        matched := matched[p := 0];
        rest := rest - {p};
      }
    }

    method BecomeLeader()
      requires Valid() && role == CANDIDATE
      modifies this`role, this`nextIndex, this`matchIndex
      ensures Valid() && role == LEADER
      ensures nextIndex == map p | p in c.Listed(id) :: lastLogIndex + 1
      ensures matchIndex == map p | p in c.Listed(id) :: 0
      ensures View() == NodeSpec.BecomeLeader(c, old(View()))
    {
      role := LEADER;
      nextIndex, matchIndex := InitTables(lastLogIndex, nextIndex, matchIndex);
    }

    /** The reply of `from`, which this election has not counted yet: each peer's thread ends after one. */
    method CountVote(from: NodeId, reqTerm: nat, replyTerm: nat, ok: bool)
      requires Valid() && from !in granted
      modifies this, store
      ensures Valid() && currentTerm >= old(currentTerm)
      ensures View() == NodeSpec.CountVote(c, old(View()), from, reqTerm, replyTerm, ok)
    {
      if role != CANDIDATE || currentTerm != reqTerm {
        return;
      }
      if replyTerm > currentTerm {
        BecomeFollower(replyTerm);
        return;
      }
      if ok {
        votesReceived, granted := votesReceived + 1, granted + {from};
        ListedSize(c, id);
        if votesReceived == (|c.Listed(id)| + 1) / 2 + 1 {
          BecomeLeader();
        }
      }
    }

    // ---------- AppendEntries, follower side ----------

    predicate Meets(prev: nat, prevTerm: nat)
      reads this, store
    {
      || prev == 0
      || (prev < lastLogIndex && TermOf(store.db.logs, prev) == prevTerm)
      || (prev == lastLogIndex && lastLogTerm == prevTerm)
    }

    method TakeEntry(index: nat, e: Entry)
      requires store.Valid() && index >= 1
      modifies this`lastLogIndex, this`lastLogTerm, store
      ensures store.Valid() && OnDisk() == Took(old(OnDisk()), index, e)
      ensures store.db == old(store.db).(logs := store.db.logs, lastLogIndex := store.db.lastLogIndex)
    {
      if index <= lastLogIndex {
        if TermOf(store.db.logs, index) != e.term {
          store.TruncateLog(index);
          lastLogIndex := index - 1;
          store.AppendLog(e);
          lastLogIndex := index;
          lastLogTerm := e.term;
        }
      } else {
        store.AppendLog(e);
        lastLogIndex := index;
        lastLogTerm := e.term;
      }
    }

    /** The loop, for entries with any indexes. */
    method AppendAll(prev: nat, entries: Log)
      requires store.Valid()
      modifies this`lastLogIndex, this`lastLogTerm, store
      ensures store.Valid() && OnDisk() == TookAll(old(OnDisk()), prev, entries)
      ensures store.db == old(store.db).(logs := store.db.logs, lastLogIndex := store.db.lastLogIndex)
    {
      for k := 0 to |entries|
        invariant store.Valid()
        invariant store.db == old(store.db).(logs := store.db.logs, lastLogIndex := store.db.lastLogIndex)
        invariant TookAll(OnDisk(), prev + k, entries[k..]) == TookAll(old(OnDisk()), prev, entries)
      {
        assert entries[k..][1..] == entries[k + 1..];
        TakeEntry(prev + k + 1, entries[k]);
      }
    }

    /** The term rules of an AppendEntries that is not stale. */
    method Heed(term: nat)
      requires Valid() && term >= currentTerm
      modifies this, store
      ensures Valid() && currentTerm == term && OnDisk() == old(OnDisk())
      ensures View() == Adopt(old(View()), term)
      ensures lastApplied == old(lastApplied) && commitIndex == old(commitIndex)
    {
      if term > currentTerm {
        BecomeFollower(term);
      } else if role != FOLLOWER {
        BecomeFollower(term);
      }
    }

    /** Appending and committing once the message is accepted. */
    method Absorb(a: AppendArgs)
      requires Valid()
      modifies this`lastLogIndex, this`lastLogTerm, this`commitIndex, store
      ensures OnDisk() == TookAll(old(OnDisk()), a.prev, a.entries)
      ensures commitIndex == if a.commit > old(commitIndex) then Min(a.commit, lastLogIndex) else old(commitIndex)
      ensures store.db == old(store.db).(logs := store.db.logs, lastLogIndex := store.db.lastLogIndex)
      ensures a.prev <= old(lastLogIndex) && NumberedFrom(a.entries, a.prev + 1) ==>
                && Valid()
                && View() == old(View()).(log := Splice(old(View().log), a.prev, a.entries), commit := commitIndex)
                && KeepsRetained(old(OnDisk()), OnDisk())
    {
      if a.prev <= lastLogIndex && NumberedFrom(a.entries, a.prev + 1) {
        TookAllReads(OnDisk(), a.prev, a.entries);
        TookAllRetained(OnDisk(), a.prev, a.entries);
      }
      AppendAll(a.prev, a.entries);
      if a.commit > commitIndex {
        commitIndex := Min(a.commit, lastLogIndex);
      }
    }

    /** Accepts exactly a current message whose prev matches. The records are then what the loop makes of
        them, and if the entries are numbered from prev + 1, as every contiguous message is, RAM and storage
        stay in step and the node does what the protocol step says. */
    method HandleAppendEntries(a: AppendArgs) returns (replyTerm: nat, ok: bool)
      requires Valid()
      modifies this, store
      ensures currentTerm == Max(old(currentTerm), a.term) && replyTerm == currentTerm
      ensures ok <==> a.term >= old(currentTerm) && old(Meets(a.prev, a.prevTerm))
      ensures OnDisk() == if ok then TookAll(old(OnDisk()), a.prev, a.entries) else old(OnDisk())
      ensures commitIndex == if ok && a.commit > old(commitIndex) then Min(a.commit, lastLogIndex) else old(commitIndex)
      ensures lastApplied == old(lastApplied)
      ensures store.db.accounts == old(store.db.accounts) && store.db.results == old(store.db.results)
      ensures !ok || NumberedFrom(a.entries, a.prev + 1) ==>
                && Valid() && Verdict(View(), replyTerm, ok) == HandleAppend(old(View()), a)
                && KeepsRetained(old(OnDisk()), OnDisk())
    {
      if a.term < currentTerm {
        return currentTerm, false;
      }
      Heed(a.term);
      if a.prev > 0 {
        if a.prev > lastLogIndex {
          return currentTerm, false;
        }
        var myTerm;
        if a.prev == lastLogIndex {
          myTerm := lastLogTerm;
        } else {
          myTerm := TermOf(store.db.logs, a.prev);
        }
        if myTerm != a.prevTerm {
          return currentTerm, false;
        }
      }
      Absorb(a);
      return currentTerm, true;
    }

    // ---------- leader side ----------

    /** The locked part of processClientRequest. */
    method ProcessClientRequest(cmd: Command)
      requires Valid()
      modifies this`lastLogIndex, this`lastLogTerm, store
      ensures Valid()
      ensures View() == ClientAppend(old(View()), cmd)
      ensures KeepsRetained(old(OnDisk()), OnDisk())
    {
      if role != LEADER {
        return;
      }
      var e := Entry(currentTerm, lastLogIndex + 1, cmd);
      store.AppendLog(e);
      lastLogIndex := lastLogIndex + 1;
      lastLogTerm := currentTerm;
    }

    /** Message building, at one moment. */
    method BuildMessage(peer: NodeId, prev: nat) returns (a: AppendArgs)
      requires Valid()
      ensures a == BuildAppend(View(), peer, prev)
    {
      var nextIdx := if peer in nextIndex then nextIndex[peer] else 0;
      var prevTerm := if prev > 0 then TermOf(store.db.logs, prev) else 0;
      var entries: Log := [];
      if 1 <= nextIdx <= lastLogIndex {
        var i := nextIdx;
        while i <= lastLogIndex && |entries| < BATCH
          invariant nextIdx <= i <= lastLogIndex + 1 && |entries| == i - nextIdx <= BATCH
          invariant entries == View().log[nextIdx - 1..i - 1]
        {
          assert View().log[i - 1] == GetLogEntry(store.db.logs, i);
          entries := entries + [GetLogEntry(store.db.logs, i)];
          i := i + 1;
        }
      }
      a := AppendArgs(currentTerm, id, prev, prevTerm, entries, commitIndex);
    }

    /** The inner loop of the commit scan. */
    method CountHolders(index: nat) returns (count: nat)
      requires Valid()
      ensures count == 1 + |set p | p in c.Listed(id) - {id} && Lookup(matchIndex, p) >= index|
    {
      count := 1;
      var rest := c.Listed(id);
      ghost var seen: set<NodeId> := {};
      while rest != {}
        invariant rest <= c.Listed(id)
        invariant seen == set p | p in c.Listed(id) - rest && p != id && Lookup(matchIndex, p) >= index
        invariant count == 1 + |seen|
        decreases rest
      {
        var p :| p in rest;
        if p != id && (if p in matchIndex then matchIndex[p] else 0) >= index {
          count := count + 1;
          seen := seen + {p};
        }
        rest := rest - {p};
      }
      assert seen == set p | p in c.Listed(id) - {id} && Lookup(matchIndex, p) >= index;
    }

    /** The downward loop: the first index that fits is taken. */
    method ScanCommit()
      requires Valid()
      modifies this`commitIndex
      ensures View() == old(View()).(commit := CommitScan(c, old(View()), old(|View().log|)))
    {
      var n := lastLogIndex;
      while n > commitIndex
        invariant n <= lastLogIndex && commitIndex == old(commitIndex)
        invariant CommitScan(c, View(), lastLogIndex) ==
                    (if n > commitIndex then CommitScan(c, View(), n) else commitIndex)
        decreases n
      {
        if TermOf(store.db.logs, n) == currentTerm {
          var count := CountHolders(n);
          assert count == Count(c, View(), n);
          ListedSize(c, id);
          if count > (|c.Listed(id)| + 1) / 2 {
            commitIndex := n;
            return;
          }
        }
        n := n - 1;
      }
    }

    method HandleAppendReply(peer: NodeId, req: AppendArgs, replyTerm: nat, ok: bool)
      requires Valid() && peer in c.Peers(id)
      modifies this, store
      ensures Valid()
      ensures View() == NodeSpec.HandleAppendReply(c, old(View()), peer, req, replyTerm, ok)
    {
      if role != LEADER || currentTerm != req.term {
        return;
      }
      if replyTerm > currentTerm {
        BecomeFollower(replyTerm);
        return;
      }
      if ok {
        if req.entries != [] {
          var last := req.entries[|req.entries| - 1].index;
          matchIndex := matchIndex[peer := Max(if peer in matchIndex then matchIndex[peer] else 0, last)];
          nextIndex := nextIndex[peer := matchIndex[peer] + 1];
          ScanCommit();
        }
      } else if peer in nextIndex && nextIndex[peer] > 1 {
        nextIndex := nextIndex[peer := nextIndex[peer] - 1];
      }
    }

    // ---------- executor ----------

    /** Fetch the committed entries after lastApplied, at most a hundred. */
    method FetchBatch() returns (batch: Log)
      ensures |batch| == Min(BATCH, if commitIndex > lastApplied then commitIndex - lastApplied else 0)
      ensures forall k :: 0 <= k < |batch| ==> batch[k] == GetLogEntry(store.db.logs, lastApplied + 1 + k)
    {
      batch := [];
      var i := lastApplied + 1;
      while i <= commitIndex && |batch| < BATCH
        invariant lastApplied + 1 <= i && |batch| == i - lastApplied - 1 <= BATCH
        invariant i <= commitIndex + 1 || i == lastApplied + 1
        invariant forall k :: 0 <= k < |batch| ==> batch[k] == GetLogEntry(store.db.logs, lastApplied + 1 + k)
      {
        batch := batch + [GetLogEntry(store.db.logs, i)];
        i := i + 1;
      }
    }

    ghost function StateMachine(): Bank
      reads this, store
    {
      Bank(store.db.accounts, store.db.results)
    }

    /** One entry: decide, write atomically, advance lastApplied, and compact at every thousandth. */
    method ApplyEntry(e: Entry)
      requires Valid() && e.index < lastLogIndex + 1
      modifies this`lastApplied, store
      ensures Valid() && lastApplied == e.index && StateMachine() == Apply(old(StateMachine()), e)
      ensures Retained(old(store.db.logs), lastLogIndex, old(lastApplied)) && e.index >= old(lastApplied) ==>
                Retained(store.db.logs, lastLogIndex, lastApplied)
      ensures Reads(OnDisk()) == Cut(old(Reads(OnDisk())), CompactedBy(e.index))
      ensures forall k :: k in store.db.logs <==> k in old(store.db.logs) && (e.index % 1000 == 0 ==> k + 100 > e.index)
      ensures forall k :: k in store.db.logs ==> store.db.logs[k] == old(store.db.logs)[k]
    {
      var message := "Success";
      var senderNew, receiverNew := NO_CHANGE, NO_CHANGE;
      if e.cmd.kind == TRANSFER {
        var senderBal := Balance(store.db.accounts, e.cmd.sender);
        var receiverBal := Balance(store.db.accounts, e.cmd.receiver);
        if senderBal >= e.cmd.amount {
          senderNew := Wrap32(senderBal - e.cmd.amount);
          receiverNew := Wrap32(receiverBal + e.cmd.amount);
        } else {
          message := "Insufficient Funds";
        }
      } else {
        message := "Balance: " + Text.Decimal(Balance(store.db.accounts, e.cmd.sender));
      }
      store.ApplyTransaction(e, senderNew, receiverNew, message);
      lastApplied := e.index;
      CompactWhenDue();
    }

    /** The end of the executor's turn: every thousandth entry compacts the log. */
    method CompactWhenDue()
      requires Valid() && lastApplied <= lastLogIndex
      modifies store
      ensures Valid() && store.db == old(store.db).(logs := store.db.logs)
      ensures Reads(OnDisk()) == Cut(old(Reads(OnDisk())), CompactedBy(lastApplied))
      ensures forall k :: k in store.db.logs <==>
                k in old(store.db.logs) && (lastApplied % 1000 == 0 ==> k + 100 > lastApplied)
      ensures forall k :: k in store.db.logs ==> store.db.logs[k] == old(store.db.logs)[k]
    {
      if lastApplied % 1000 == 0 {
        var compactIndex := lastApplied - 100;
        if compactIndex > 0 {
          CompactCuts(store.db.logs, lastLogIndex, compactIndex);
          store.CompactLog(compactIndex);
        }
      }
    }

    /** A batch is applied as the fold of its entries, and at every point between two entries what is on
        disk is the fold of the entries so far together with the index of the last of them. */
    method ApplyBatch(batch: Log)
      requires Valid() && forall k :: 0 <= k < |batch| ==> batch[k].index == lastApplied + 1 + k
      requires lastApplied + |batch| <= lastLogIndex
      modifies this`lastApplied, store
      ensures Valid() && lastApplied == old(lastApplied) + |batch|
      ensures StateMachine() == Fold(old(StateMachine()), batch)
      ensures Reads(OnDisk()) == Cut(old(Reads(OnDisk())), CompactedFrom(old(lastApplied), |batch|))
      ensures Retained(old(store.db.logs), lastLogIndex, old(lastApplied)) ==>
                Retained(store.db.logs, lastLogIndex, lastApplied)
    {
      ghost var bank, disk := StateMachine(), OnDisk();
      for k := 0 to |batch|
        invariant Valid() && lastApplied == store.db.lastApplied == old(lastApplied) + k
        invariant Carried(bank, disk, old(lastApplied), batch[..k], StateMachine(), OnDisk())
      {
        ghost var b, d := StateMachine(), OnDisk();
        ApplyEntry(batch[k]);
        CarriedOn(bank, disk, old(lastApplied), batch, k, b, d, StateMachine(), OnDisk());
      }
      assert batch[..|batch|] == batch;
    }

    // ---------- snapshots ----------

    /** The replacing part of handleInstallSnapshot: state machine, RAM, then the log records above the
        snapshot, and last the anchor entry that stands for it. */
    method Install(lastIndex: nat, snapTerm: nat, data: string, decoded: map<string, Outcome>)
      requires Valid() && lastIndex >= 1
      modifies this`lastLogIndex, this`lastLogTerm, this`lastApplied, this`commitIndex, store
      ensures Valid() && lastApplied == commitIndex == lastLogIndex == lastIndex && lastLogTerm == snapTerm
      ensures store.db.accounts == Restored(data) && store.db.results == decoded
      ensures store.db.logs ==
              Without(old(store.db.logs), lastIndex + 1, old(lastLogIndex))[lastIndex := Anchor(lastIndex, snapTerm)]
    {
      store.ApplySnapshot(data, lastIndex, snapTerm, decoded);
      lastLogIndex := lastIndex;
      lastLogTerm := snapTerm;
      lastApplied := lastIndex;
      commitIndex := lastIndex;
      store.TruncateLog(lastIndex + 1);
      store.AppendLog(Anchor(lastIndex, snapTerm));
      assert TermOf(store.db.logs, lastIndex) == snapTerm;
    }

    predicate Installs(term: nat, lastIndex: nat)
      reads this
    {
      term >= currentTerm && lastIndex > lastApplied
    }

    method HandleInstallSnapshot(term: nat, lastIndex: nat, snapTerm: nat, data: string, decoded: map<string, Outcome>)
        returns (replyTerm: nat)
      requires Valid()
      modifies this, store
      ensures Valid() && currentTerm == Max(old(currentTerm), term)
      ensures old(Installs(term, lastIndex)) ==>
                && lastApplied == commitIndex == lastLogIndex == lastIndex && lastLogTerm == snapTerm
                && replyTerm == currentTerm
                && store.db.accounts == Restored(data) && store.db.results == decoded
                && lastIndex in store.db.logs && store.db.logs[lastIndex].term == snapTerm
      ensures !old(Installs(term, lastIndex)) ==>
                && StateMachine() == old(StateMachine()) && lastApplied == old(lastApplied)
                && commitIndex == old(commitIndex) && lastLogIndex == old(lastLogIndex)
                && store.db.logs == old(store.db.logs) && replyTerm == old(currentTerm)
      ensures StandsDown(old(Place()), Place(), term)
      ensures role == LEADER ==> old(role) == LEADER && currentTerm == old(currentTerm)
    {
      replyTerm := currentTerm;
      if term < currentTerm {
        return;
      }
      if term > currentTerm {
        BecomeFollower(term);
      }
      if lastIndex <= lastApplied {
        return;
      }
      Install(lastIndex, snapTerm, data, decoded);
      replyTerm := currentTerm;
    }

    /** The leader's side after the RPC; unlike AppendEntries it does not ask whether the term is still
        the one in which the snapshot was sent. */
    method HandleSnapshotReply(peer: NodeId, lastIndex: nat, replyTerm: nat)
      requires Valid() && peer in c.Peers(id)
      modifies this, store
      ensures Valid() && currentTerm == Max(old(currentTerm), replyTerm)
      ensures replyTerm <= old(currentTerm) && old(role) == LEADER ==>
                && Lookup(matchIndex, peer) == Max(old(Lookup(matchIndex, peer)), lastIndex)
                && Lookup(nextIndex, peer) == Lookup(matchIndex, peer) + 1
      ensures replyTerm <= old(currentTerm) && old(role) != LEADER ==>
                matchIndex == old(matchIndex) && nextIndex == old(nextIndex)
      ensures commitIndex == old(commitIndex) && lastLogIndex == old(lastLogIndex)
      ensures var tables := old(Place()).(matched := matchIndex, next := nextIndex);
              && StandsDown(tables, Place(), replyTerm)
              && (replyTerm > old(currentTerm) ==> tables == old(Place()))
      ensures forall q :: q != peer ==> SameEntry(nextIndex, old(nextIndex), q)
      ensures forall q :: q != peer ==> SameEntry(matchIndex, old(matchIndex), q)
    {
      if replyTerm > currentTerm {
        BecomeFollower(replyTerm);
        return;
      }
      if role == LEADER {
        matchIndex := matchIndex[peer := Max(if peer in matchIndex then matchIndex[peer] else 0, lastIndex)];
        nextIndex := nextIndex[peer := matchIndex[peer] + 1];
      }
    }
  }

  /** A restart at any moment between critical sections reloads what was in RAM. */
  method Reboot(n: RaftNode) returns (m: RaftNode)
    requires n.Valid()
    ensures m.Valid() && fresh(m) && m.store == n.store
    ensures m.currentTerm == n.currentTerm && m.votedFor == n.votedFor
    ensures m.lastLogIndex == n.lastLogIndex && m.lastLogTerm == n.lastLogTerm && m.lastApplied == n.lastApplied
    ensures m.View() == Restart(n.View())
  {
    m := new RaftNode(n.c, n.id, n.store);
  }

  /** A lagging follower takes a leader's dump and then its next AppendEntries, which starts right after it.
      The message is accepted, and the accounts are the leader's if and only if the dump restores them. */
  method InstallThenAppend(leader: RaftNode, follower: RaftNode, scan: seq<Record>, decoded: map<string, Outcome>,
                           a: AppendArgs) returns (ok: bool)
    requires leader.Valid() && follower.Valid() && leader != follower && leader.store != follower.store
    requires leader.lastApplied >= 1 && leader.lastApplied in leader.store.db.logs
    requires follower.lastApplied < leader.lastApplied && follower.currentTerm <= leader.currentTerm
    requires ScanOf(scan, leader.store.db.accounts, leader.store.db.results.Keys)
    requires forall id :: id in leader.store.db.accounts ==> leader.store.db.accounts[id] >= 0
    requires a.term == leader.currentTerm && a.prev == leader.lastApplied
    requires a.prevTerm == TermOf(leader.store.db.logs, a.prev) && NumberedFrom(a.entries, a.prev + 1)
    modifies follower, follower.store
    ensures ok && follower.Valid() && follower.lastApplied == leader.lastApplied
    ensures follower.store.db.accounts == leader.store.db.accounts <==>
            CleanIds(leader.store.db.accounts) &&
            SameBalances(PutAll(map[], Parse(Print(Only(scan, REQ)))), leader.store.db.accounts)
  {
    var snap := leader.store.CreateSnapshot(scan);
    DumpRestores(scan, leader.store.db.accounts, leader.store.db.results.Keys);
    var t := follower.HandleInstallSnapshot(leader.currentTerm, snap.lastIndex, snap.lastTerm, snap.data, decoded);
    t, ok := follower.HandleAppendEntries(a);
  }
}
