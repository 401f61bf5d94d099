/** The leader's handling of AppendEntries replies, with the commit scan, keeps the invariant. */
module ReplySteps {
  import opened Quorum
  import opened Bank
  import opened NodeSpec
  import opened Cluster
  import opened Invariant
  import opened HistoryFacts
  import opened Frame
  import opened Steps
  import opened ElectionSteps
  import opened VoteSteps
  import opened ReplicationSteps

  // ---------- the commit scan ----------

  /** The scan is exact: it takes the greatest index above commitIndex that a quorum of matchIndex
      values and the current term allow, and changes nothing if there is none. */
  lemma {:induction false} ScanExact(c: Config, n: Node, top: nat)
    ensures var r := CommitScan(c, n, top);
            && (forall k :: r < k <= top ==> !Commits(c, n, k))
            && (r == n.commit || (n.commit < r <= top && Commits(c, n, r)))
  {
    if top > n.commit && !Commits(c, n, top) {
      ScanExact(c, n, top - 1);
    }
  }

  /** Truthful matchIndex values turn a scan hit into a committed index. */
  lemma CommitsIsCommitted(c: Config, h: History, n: Node, k: nat)
    requires n.id in c.nodes && n.term in h.reigns && ReignOk(c, h, n.term) && h.reigns[n.term].leader == n.id
    requires n.log == h.reigns[n.term].log && k >= 1 && Commits(c, n, k)
    requires forall p :: p in c.Peers(n.id) ==> Lookup(n.matched, p) <= Ack(h, n.term, p)
    ensures Committed(c, h, n.term, k)
  {
    var all := Holders(c, n, k) + {n.id};
    assert |all| == Count(c, n, k);
    SubsetSize(all, Ackers(c, h, n.term, k));
  }

  // ---------- one reply ----------

  /** The leader n, still in the term of the request a to peer p, and what the reply tells. */
  ghost predicate Hears(c: Config, h: History, n: Node, p: Node, a: AppendArgs, ok: bool, genesis: Bank) {
    && Reigns(c, h, n, genesis) && ReignOk(c, h, n.term)
    && n.id in c.nodes && p.id in c.Peers(n.id)
    && a.term == n.term && ArgsOk(c, h, a) && a.prev + 1 == Lookup(n.next, p.id) && ProgressOk(h, n, p)
    && (ok ==> Ack(h, a.term, p.id) >= a.prev + |a.entries| && (a.entries != [] ==> Synced(h, a.term, p)))
    && (!ok ==> a.prev >= 1 && p.term >= a.term && Floor(h, a.term, p, a.prev - 1))
  }

  function After(c: Config, n: Node, p: NodeId, a: AppendArgs, ok: bool): Node {
    HandleAppendReply(c, n, p, a, n.term, ok)
  }

  /** The leader's tables after a successful reply, before the scan. */
  function Reached(n: Node, p: NodeId, a: AppendArgs): Node {
    var reached := Max(Lookup(n.matched, p), Reach(a));
    n.(matched := n.matched[p := reached], next := n.next[p := reached + 1])
  }

  lemma AfterIsScan(c: Config, h: History, n: Node, p: NodeId, a: AppendArgs)
    requires n.role == LEADER && a.term == n.term && ArgsOk(c, h, a) && ReignOk(c, h, a.term) && a.entries != []
    ensures var m := Reached(n, p, a); After(c, n, p, a, true) == m.(commit := CommitScan(c, m, |m.log|))
  {
  }

  lemma AfterCommit(c: Config, h: History, n: Node, p: Node, a: AppendArgs, ok: bool, genesis: Bank)
    requires Hears(c, h, n, p, a, ok, genesis)
    requires forall q :: q in c.Peers(n.id) ==> Lookup(n.matched, q) <= Ack(h, n.term, q)
    ensures var n' := After(c, n, p.id, a, ok);
            n'.commit == n.commit || (n.commit < n'.commit <= |n.log| && Committed(c, h, n.term, n'.commit))
  {
    if ok && a.entries != [] {
      AfterIsScan(c, h, n, p.id, a);
      var m := Reached(n, p.id, a);
      ScanExact(c, m, |m.log|);
      var k := CommitScan(c, m, |m.log|);
      if k != n.commit {
        CommitsIsCommitted(c, h, m, k);
      }
    }
  }

  lemma AfterSafe(c: Config, h: History, n: Node, p: Node, a: AppendArgs, ok: bool, genesis: Bank)
    requires Hears(c, h, n, p, a, ok, genesis)
    requires forall q :: q in c.Peers(n.id) ==> Lookup(n.matched, q) <= Ack(h, n.term, q)
    ensures var n' := After(c, n, p.id, a, ok); SafeOk(c, h, n') && ExecOk(n', genesis) && n'.commit >= n.commit
  {
    var n' := After(c, n, p.id, a, ok);
    AfterCommit(c, h, n, p, a, ok, genesis);
    if n'.commit > n.commit {
      var x := n.log[..n'.commit];
      assert n.term <= n'.term && Committed(c, h, n.term, n'.commit) && x <= h.reigns[n.term].log[..n'.commit];
      assert Safe(c, h, x, n.term);
    }
    ExecCarries(n, n', genesis);
  }

  /** Only this thread's peer has its nextIndex moved, and no other thread serves that peer. */
  lemma AfterWorkers(c: Config, n: Node, p: NodeId, tid: nat, a: AppendArgs, ok: bool)
    requires WorkersOk(c, n) && tid in n.workers && n.workers[tid].peer == p && a.term == n.term && n.role == LEADER
    ensures var n' := After(c, n, p, a, ok); WorkersOk(c, n'.(workers := n'.workers[tid := Returned(p)]))
  {
    var n' := After(c, n, p, a, ok);
    var m := n'.(workers := n'.workers[tid := Returned(p)]);
    assert WorkerOk(n, n.workers[tid]);
    forall t | t in m.workers ensures m.workers[t].peer in c.Peers(m.id) && WorkerOk(m, m.workers[t]) {
      if t != tid {
        assert WorkerOk(n, n.workers[t]);
        assert n.workers[t].peer != p;
      }
    }
  }

  lemma AfterNode(c: Config, h: History, n: Node, p: Node, tid: nat, a: AppendArgs, ok: bool, genesis: Bank)
    requires Hears(c, h, n, p, a, ok, genesis) && tid in n.workers && n.workers[tid].peer == p.id
    requires forall q :: q in c.Peers(n.id) ==> Lookup(n.matched, q) <= Ack(h, n.term, q)
    ensures var n' := After(c, n, p.id, a, ok); NodeOk(c, h, n'.(workers := n'.workers[tid := Returned(p.id)]), genesis)
  {
    var n' := After(c, n, p.id, a, ok);
    var m := n'.(workers := n'.workers[tid := Returned(p.id)]);
    AfterShape(c, n, p.id, tid, a, ok);
    AfterSafe(c, h, n, p, a, ok, genesis);
    SameSafe(c, h, n', m, genesis);
    AfterWorkers(c, n, p.id, tid, a, ok);
    ReplyNode(c, h, n, m, genesis);
  }

  lemma ReplyNode(c: Config, h: History, n: Node, m: Node, genesis: Bank)
    requires AcksOk(h) && NodeOk(c, h, n, genesis) && n.role == m.role
    requires m == n.(commit := m.commit, next := m.next, matched := m.matched, workers := m.workers)
    requires SafeOk(c, h, m) && ExecOk(m, genesis) && WorkersOk(c, m)
    ensures NodeOk(c, h, m, genesis)
  {
    AfterRegal(c, h, n, m);
  }

  lemma AfterRegal(c: Config, h: History, n: Node, m: Node)
    requires AcksOk(h) && RegalOk(h, n) && VoteOk(h, n) && AckOk(h, n) && n.role == m.role
    requires m == n.(commit := m.commit, next := m.next, matched := m.matched, workers := m.workers)
    ensures RegalOk(h, m) && VoteOk(h, m) && AckOk(h, m)
  {
    forall t | t in h.reigns ensures RegalAt(h, m, t) {
      assert RegalAt(h, n, t);
    }
    forall t | (t, m.id) in h.ballots ensures VoteAt(h, m, t) {
      assert VoteAt(h, n, t);
    }
    forall t, j: nat | t in h.reigns && j <= Ack(h, t, m.id) ensures Kept(h, t, j, m.log, m.term) {
      assert Kept(h, t, j, n.log, n.term);
    }
  }

  lemma MatchedTruthful(s: State, i: NodeId, genesis: Bank)
    requires Inv(s, genesis) && Leads(s, i) && s.ns[i].term in s.h.reigns
    ensures forall q :: q in s.c.Peers(i) ==> Lookup(s.ns[i].matched, q) <= Ack(s.h, s.ns[i].term, q)
  {
    forall q | q in s.c.Peers(i) ensures Lookup(s.ns[i].matched, q) <= Ack(s.h, s.ns[i].term, q) {
      assert ProgressOk(s.h, s.ns[i], s.ns[q]);
      assert NodeOk(s.c, s.h, s.ns[q], genesis);
    }
  }

  /** The reply counts: the node still leads in the request's term and the reply is not from a later one. */
  predicate Heeds(s: State, i: NodeId, tid: nat, m: Msg) {
    Enabled(s, OnAppendRep(i, tid, m)) && s.ns[i].role == LEADER && s.ns[i].term == m.args.term && m.term <= m.args.term
  }

  lemma HeedsHears(s: State, i: NodeId, tid: nat, m: Msg, genesis: Bank)
    requires Inv(s, genesis) && Heeds(s, i, tid, m)
    ensures m.from in s.ns && m.from != i && s.ns[m.from].id == m.from && s.ns[i].id == i
    ensures Hears(s.c, s.h, s.ns[i], s.ns[m.from], m.args, m.ok, genesis)
  {
    LeaderFacts(s, i, genesis);
    var n := s.ns[i];
    assert NodeOk(s.c, s.h, n, genesis);
    assert WorkerOk(n, n.workers[tid]);
    assert MsgOk(s.c, s.ns, s.h, m);
    assert NodeOk(s.c, s.h, s.ns[m.from], genesis);
    assert ReignOk(s.c, s.h, n.term);
    assert ProgressOk(s.h, n, s.ns[m.from]);
  }

  /** A reply moves the tables for its own peer only. */
  lemma AfterOthers(c: Config, h: History, n: Node, p: NodeId, a: AppendArgs, ok: bool, q: Node)
    requires n.role == LEADER && n.term == a.term && n.term in h.reigns && q.id != p && ProgressOk(h, n, q)
    ensures After(c, n, p, a, ok).term == n.term && ProgressOk(h, After(c, n, p, a, ok), q)
  {
  }

  lemma LastIndex(c: Config, h: History, a: AppendArgs)
    requires ArgsOk(c, h, a) && ReignOk(c, h, a.term) && a.entries != []
    ensures a.entries[|a.entries| - 1].index == a.prev + |a.entries|
  {
    assert a.entries[|a.entries| - 1] == h.reigns[a.term].log[a.prev + |a.entries| - 1];
  }

  lemma AfterProgress(c: Config, h: History, n: Node, p: Node, a: AppendArgs, ok: bool, genesis: Bank)
    requires Hears(c, h, n, p, a, ok, genesis)
    ensures ProgressOk(h, After(c, n, p.id, a, ok), p)
  {
    if ok && a.entries != [] {
      LastIndex(c, h, a);
      assert (n.term, p.id) in h.acks ==> h.acks[(n.term, p.id)] <= |h.reigns[n.term].log|;
    }
  }

  /** What HandleAppendReply and the end of the thread may change of a heeding leader. */
  lemma AfterShape(c: Config, n: Node, p: NodeId, tid: nat, a: AppendArgs, ok: bool)
    requires n.role == LEADER && n.term == a.term
    ensures var n' := After(c, n, p, a, ok); var m := n'.(workers := n'.workers[tid := Returned(p)]);
            m == n.(commit := m.commit, next := m.next, matched := m.matched, workers := m.workers)
  {
  }

  lemma SameSafe(c: Config, h: History, n: Node, m: Node, genesis: Bank)
    requires SafeOk(c, h, n) && ExecOk(n, genesis) && m == n.(workers := m.workers)
    ensures SafeOk(c, h, m) && ExecOk(m, genesis)
  {
  }

  lemma HeededProgress(s: State, i: NodeId, tid: nat, m: Msg, p: NodeId, genesis: Bank)
    requires Inv(s, genesis) && Heeds(s, i, tid, m) && p in s.ns && p != i
    ensures var n' := After(s.c, s.ns[i], m.from, m.args, m.ok); n'.term in s.h.reigns && ProgressOk(s.h, n', s.ns[p])
  {
    HeedsHears(s, i, tid, m, genesis);
    if p == m.from {
      AfterProgress(s.c, s.h, s.ns[i], s.ns[p], m.args, m.ok, genesis);
    } else {
      assert ProgressOk(s.h, s.ns[i], s.ns[p]);
      assert NodeOk(s.c, s.h, s.ns[p], genesis);
      AfterOthers(s.c, s.h, s.ns[i], m.from, m.args, m.ok, s.ns[p]);
    }
  }

  lemma HeededNode(s: State, i: NodeId, tid: nat, m: Msg, genesis: Bank)
    requires Inv(s, genesis) && Heeds(s, i, tid, m)
    ensures var n' := After(s.c, s.ns[i], m.from, m.args, m.ok);
            s.ns[i].id == i && NodeOk(s.c, s.h, n'.(workers := n'.workers[tid := Returned(m.from)]), genesis)
  {
    HeedsHears(s, i, tid, m, genesis);
    MatchedTruthful(s, i, genesis);
    AfterNode(s.c, s.h, s.ns[i], s.ns[m.from], tid, m.args, m.ok, genesis);
  }

  lemma HeededKeeps(s: State, i: NodeId, tid: nat, m: Msg, genesis: Bank)
    requires Inv(s, genesis) && Heeds(s, i, tid, m)
    ensures Inv(DoAppendRep(s, i, tid, m), genesis)
  {
    var n' := After(s.c, s.ns[i], m.from, m.args, m.ok);
    var s' := DoAppendRep(s, i, tid, m);
    HeededNode(s, i, tid, m, genesis);
    assert s'.ns[i] == n'.(workers := n'.workers[tid := Returned(m.from)]);
    forall p | p in s.ns && p != i ensures ProgressOk(s.h, s'.ns[i], s.ns[p]) {
      HeededProgress(s, i, tid, m, p, genesis);
    }
    SameHistory(s, s', i, genesis);
  }

  lemma AppendRepKeeps(s: State, i: NodeId, tid: nat, m: Msg, genesis: Bank)
    requires Inv(s, genesis) && Enabled(s, OnAppendRep(i, tid, m))
    ensures Inv(DoAppendRep(s, i, tid, m), genesis)
  {
    var n := s.ns[i];
    assert NodeOk(s.c, s.h, n, genesis);
    if Heeds(s, i, tid, m) {
      HeededKeeps(s, i, tid, m, genesis);
    } else if n.role == LEADER && n.term == m.args.term {
      assert WorkerOk(n, n.workers[tid]);
      var f := BecomeFollower(n, m.term);
      var s1 := s.(ns := s.ns[i := f]);
      RaiseKeeps(s, i, m.term, genesis);
      TimeoutKeeps(s1, i, tid, genesis);
      MapPutTwice(s.ns, i, f, f.(workers := f.workers[tid := Returned(m.from)]));
      assert DoAppendRep(s, i, tid, m) == DoTimeout(s1, i, tid);
    } else {
      TimeoutKeeps(s, i, tid, genesis);
      assert DoAppendRep(s, i, tid, m) == DoTimeout(s, i, tid);
    }
  }
}
