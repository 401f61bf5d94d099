/** Every step of the cluster keeps the invariant. */
module Steps {
  import opened Quorum
  import opened Bank
  import opened NodeSpec
  import opened Cluster
  import opened Invariant
  import opened HistoryFacts
  import opened Frame

  // ---------- one node moves ----------

  lemma OthersStable(s: State, s': State, i: NodeId, genesis: Bank)
    requires Inv(s, genesis) && i in s.ns && s'.c == s.c && s'.ns.Keys == s.ns.Keys
    requires forall j :: j in s.ns && j != i ==> s'.ns[j] == s.ns[j]
    requires Extends(s.h, s'.h) && HistoryOk(s.c, s'.h)
    requires Stable(s.h, s'.h, s.ns[i], s'.ns[i])
    ensures AllStable(s.ns, s'.ns, s.h, s'.h)
  {
    forall j | j in s.ns ensures s.ns[j].id == j && Stable(s.h, s'.h, s.ns[j], s'.ns[j]) {
      assert NodeOk(s.c, s.h, s.ns[j], genesis);
      if j != i {
        StableSameLog(s.c, s.h, s'.h, s.ns[j], s'.ns[j]);
      }
    }
  }

  lemma OthersOk(s: State, s': State, i: NodeId, genesis: Bank)
    requires Inv(s, genesis) && i in s.ns && s'.c == s.c && s'.ns.Keys == s.ns.Keys
    requires forall j :: j in s.ns && j != i ==> s'.ns[j] == s.ns[j]
    requires Extends(s.h, s'.h) && HistoryOk(s.c, s'.h)
    requires forall q :: q in s.c.nodes && q != i ==> Silent(s.h, s'.h, q)
    requires s'.ns[i].id == i && NodeOk(s.c, s'.h, s'.ns[i], genesis)
    ensures NodesOk(s'.c, s'.ns, s'.h, genesis)
  {
    forall j | j in s'.ns ensures s'.ns[j].id == j && NodeOk(s'.c, s'.h, s'.ns[j], genesis) {
      if j != i {
        assert NodeOk(s.c, s.h, s.ns[j], genesis);
        SilentNode(s.c, s.h, s'.h, s.ns[j], genesis);
      }
    }
  }

  lemma OthersLead(s: State, s': State, i: NodeId, genesis: Bank)
    requires Inv(s, genesis) && i in s.ns && s'.c == s.c && s'.ns.Keys == s.ns.Keys
    requires forall j :: j in s.ns && j != i ==> s'.ns[j] == s.ns[j]
    requires Extends(s.h, s'.h)
    requires AllStable(s.ns, s'.ns, s.h, s'.h)
    requires s'.ns[i].role == LEADER && s'.ns[i].term in s'.h.reigns ==>
               forall p {:trigger ProgressOk(s'.h, s'.ns[i], s.ns[p])} ::
                 p in s.ns && p != i ==> ProgressOk(s'.h, s'.ns[i], s.ns[p])
    ensures LeadOk(s'.c, s'.ns, s'.h)
  {
    forall l, p | l in s'.ns && p in s'.ns && p != l && s'.ns[l].role == LEADER && s'.ns[l].term in s'.h.reigns
      ensures ProgressOk(s'.h, s'.ns[l], s'.ns[p])
    {
      if l == i {
        assert ProgressOk(s'.h, s'.ns[i], s.ns[p]);
      } else {
        assert NodeOk(s.c, s.h, s.ns[l], genesis);
        assert RoleOk(s.c, s.h, s.ns[l]);
        assert Stable(s.h, s'.h, s.ns[p], s'.ns[p]);
        assert ProgressOk(s.h, s.ns[l], s.ns[p]);
        ProgressMono(s.h, s'.h, s.ns[l], s'.ns[l], s.ns[p], s'.ns[p]);
      }
    }
  }

  lemma OldMessages(s: State, s': State, genesis: Bank)
    requires Inv(s, genesis) && s'.c == s.c && s'.ns.Keys == s.ns.Keys
    requires Extends(s.h, s'.h) && HistoryOk(s.c, s'.h)
    requires AllStable(s.ns, s'.ns, s.h, s'.h)
    requires forall m {:trigger MsgOk(s.c, s'.ns, s'.h, m)} :: m in s'.net && m !in s.net ==> MsgOk(s.c, s'.ns, s'.h, m)
    ensures NetOk(s'.c, s'.ns, s'.h, s'.net)
  {
    forall m | m in s'.net ensures MsgOk(s'.c, s'.ns, s'.h, m) {
      if m in s.net {
        assert MsgOk(s.c, s.ns, s.h, m);
        MsgMono(s.c, s.ns, s'.ns, s.h, s'.h, m);
      }
    }
  }

  /** The obligations of a step in which only node i moves. */
  lemma OneNodeMoves(s: State, s': State, i: NodeId, genesis: Bank)
    requires Inv(s, genesis) && i in s.ns && s'.c == s.c && s'.ns.Keys == s.ns.Keys
    requires forall j :: j in s.ns && j != i ==> s'.ns[j] == s.ns[j]
    requires Extends(s.h, s'.h) && HistoryOk(s.c, s'.h)
    requires forall q :: q in s.c.nodes && q != i ==> Silent(s.h, s'.h, q)
    requires s'.ns[i].id == i && NodeOk(s.c, s'.h, s'.ns[i], genesis)
    requires Stable(s.h, s'.h, s.ns[i], s'.ns[i])
    requires s'.ns[i].role == LEADER && s'.ns[i].term in s'.h.reigns ==>
               forall p {:trigger ProgressOk(s'.h, s'.ns[i], s.ns[p])} ::
                 p in s.ns && p != i ==> ProgressOk(s'.h, s'.ns[i], s.ns[p])
    requires forall m {:trigger MsgOk(s.c, s'.ns, s'.h, m)} :: m in s'.net && m !in s.net ==> MsgOk(s.c, s'.ns, s'.h, m)
    ensures Inv(s', genesis)
  {
    OthersOk(s, s', i, genesis);
    OthersStable(s, s', i, genesis);
    OthersLead(s, s', i, genesis);
    OldMessages(s, s', genesis);
  }

  /** The same when the history does not change. */
  lemma SameHistory(s: State, s': State, i: NodeId, genesis: Bank)
    requires Inv(s, genesis) && i in s.ns && s'.c == s.c && s'.h == s.h && s'.ns.Keys == s.ns.Keys
    requires forall j :: j in s.ns && j != i ==> s'.ns[j] == s.ns[j]
    requires s'.ns[i].id == i && s'.ns[i].term >= s.ns[i].term && s'.ns[i].log == s.ns[i].log
    requires NodeOk(s.c, s.h, s'.ns[i], genesis)
    requires s'.ns[i].role == LEADER && s'.ns[i].term in s.h.reigns ==>
               forall p {:trigger ProgressOk(s.h, s'.ns[i], s.ns[p])} ::
                 p in s.ns && p != i ==> ProgressOk(s.h, s'.ns[i], s.ns[p])
    requires forall m {:trigger MsgOk(s.c, s'.ns, s.h, m)} :: m in s'.net && m !in s.net ==> MsgOk(s.c, s'.ns, s.h, m)
    ensures Inv(s', genesis)
  {
    assert NodeOk(s.c, s.h, s.ns[i], genesis);
    StableSameLog(s.c, s.h, s.h, s.ns[i], s'.ns[i]);
    OneNodeMoves(s, s', i, genesis);
  }

  // ---------- steps that only touch threads, the executor or RAM ----------

  predicate SameCore(n: Node, n': Node) {
    && n'.id == n.id && n'.term == n.term && n'.votedFor == n.votedFor && n'.log == n.log
    && (|| n'.role == FOLLOWER
        || (n'.role == n.role && n'.granted == n.granted && n'.next == n.next && n'.matched == n.matched))
  }

  lemma CoreNode(c: Config, h: History, n: Node, n': Node, genesis: Bank)
    requires AcksOk(h) && NodeOk(c, h, n, genesis) && SameCore(n, n')
    requires SafeOk(c, h, n') && ExecOk(n', genesis) && WorkersOk(c, n')
    ensures NodeOk(c, h, n', genesis)
  {
    forall t | t in h.reigns ensures RegalAt(h, n', t) {
      assert RegalAt(h, n, t);
    }
    forall t | (t, n'.id) in h.ballots ensures VoteAt(h, n', t) {
      assert VoteAt(h, n, t);
    }
    forall t, j: nat | t in h.reigns && j <= Ack(h, t, n'.id) ensures Kept(h, t, j, n'.log, n'.term) {
      assert Kept(h, t, j, n.log, n.term);
    }
  }

  lemma LocalStep(s: State, n': Node, genesis: Bank)
    requires Inv(s, genesis) && n'.id in s.ns && SameCore(s.ns[n'.id], n')
    requires SafeOk(s.c, s.h, n') && ExecOk(n', genesis) && WorkersOk(s.c, n')
    ensures Inv(s.(ns := s.ns[n'.id := n']), genesis)
  {
    var i := n'.id;
    var n := s.ns[i];
    assert NodeOk(s.c, s.h, n, genesis);
    CoreNode(s.c, s.h, n, n', genesis);
    if n'.role == LEADER && n'.term in s.h.reigns {
      forall p | p in s.ns && p != i ensures ProgressOk(s.h, n', s.ns[p]) {
        assert ProgressOk(s.h, n, s.ns[p]);
      }
    }
    SameHistory(s, s.(ns := s.ns[i := n']), i, genesis);
  }

  /** Threads and flags may change as long as single flight holds. */
  lemma WorkerStep(s: State, n': Node, genesis: Bank)
    requires Inv(s, genesis) && n'.id in s.ns
    requires n' == s.ns[n'.id].(busy := n'.busy, workers := n'.workers)
    requires WorkersOk(s.c, n')
    ensures Inv(s.(ns := s.ns[n'.id := n']), genesis)
  {
    assert NodeOk(s.c, s.h, s.ns[n'.id], genesis);
    LocalStep(s, n', genesis);
  }

  lemma SpawnKeeps(s: State, i: NodeId, tid: nat, peer: NodeId, genesis: Bank)
    requires Inv(s, genesis) && Enabled(s, Spawn(i, tid, peer))
    ensures Inv(DoSpawn(s, i, tid, peer), genesis)
  {
    var n := s.ns[i];
    assert NodeOk(s.c, s.h, n, genesis);
    var n' := n.(busy := n.busy + {peer}, workers := n.workers[tid := Spawned(peer)]);
    forall t | t in n'.workers ensures WorkerOk(n', n'.workers[t]) {
      assert t != tid ==> WorkerOk(n, n.workers[t]);
    }
    WorkerStep(s, n', genesis);
  }

  /** Replacing the state of one thread by another for the same peer. */
  lemma ThreadMoves(s: State, i: NodeId, tid: nat, w: Worker, genesis: Bank)
    requires Inv(s, genesis) && HasWorker(s, i, tid)
    requires w.peer == s.ns[i].workers[tid].peer && WorkerOk(s.ns[i], w)
    ensures Inv(s.(ns := s.ns[i := s.ns[i].(workers := s.ns[i].workers[tid := w])]), genesis)
  {
    var n := s.ns[i];
    assert NodeOk(s.c, s.h, n, genesis);
    var n' := n.(workers := n.workers[tid := w]);
    forall t | t in n'.workers ensures WorkerOk(n', n'.workers[t]) {
      assert t != tid ==> WorkerOk(n, n.workers[t]);
    }
    WorkerStep(s, n', genesis);
  }

  lemma PrimeKeeps(s: State, i: NodeId, tid: nat, genesis: Bank)
    requires Inv(s, genesis) && Enabled(s, Prime(i, tid))
    ensures Inv(DoPrime(s, i, tid), genesis)
  {
    var n := s.ns[i];
    var p := n.workers[tid].peer;
    assert NodeOk(s.c, s.h, n, genesis);
    assert WorkerOk(n, n.workers[tid]);
    if n.role == LEADER {
      assert ProgressOk(s.h, n, s.ns[p]);
      assert NodeOk(s.c, s.h, s.ns[p], genesis);
    }
    var w := if n.role == LEADER then Primed(p, n.term, Sub1(Lookup(n.next, p))) else Returned(p);
    ThreadMoves(s, i, tid, w, genesis);
  }

  lemma TimeoutKeeps(s: State, i: NodeId, tid: nat, genesis: Bank)
    requires Inv(s, genesis) && HasWorker(s, i, tid)
    ensures Inv(DoTimeout(s, i, tid), genesis)
  {
    var n := s.ns[i];
    assert NodeOk(s.c, s.h, n, genesis);
    assert WorkerOk(n, n.workers[tid]);
    ThreadMoves(s, i, tid, Returned(n.workers[tid].peer), genesis);
  }

  lemma FinishKeeps(s: State, i: NodeId, tid: nat, genesis: Bank)
    requires Inv(s, genesis) && HasWorker(s, i, tid)
    ensures Inv(DoFinish(s, i, tid), genesis)
  {
    var n := s.ns[i];
    assert NodeOk(s.c, s.h, n, genesis);
    var n' := n.(busy := n.busy - {n.workers[tid].peer}, workers := n.workers - {tid});
    forall t | t in n'.workers ensures WorkerOk(n', n'.workers[t]) {
      assert WorkerOk(n, n.workers[t]);
    }
    WorkerStep(s, n', genesis);
  }

  lemma FetchKeeps(s: State, i: NodeId, genesis: Bank)
    requires Inv(s, genesis) && i in s.ns
    ensures Inv(s.(ns := s.ns[i := FetchBatch(s.ns[i])]), genesis)
  {
    var n := s.ns[i];
    assert NodeOk(s.c, s.h, n, genesis);
    ExecStep(s, FetchBatch(n), genesis);
  }

  lemma IndexOf(c: Config, h: History, x: Log, k: nat)
    requires HistoryOk(c, h) && Rooted(h, x) && k < |x|
    ensures x[k].index == k + 1
  {
    assert RootedAt(h, x, k);
    assert x[k] == x[..k + 1][k];
    assert ReignOk(c, h, x[k].term);
  }

  /** The executor's view depends only on the settled part of the log. */
  lemma ExecCarries(n: Node, n': Node, genesis: Bank)
    requires ExecOk(n, genesis) && n'.applied == n.applied && n'.batch == n.batch && n'.bank == n.bank
    requires Settled(n) <= Settled(n') <= |n'.log| && n'.log[..Settled(n)] == n.log[..Settled(n)]
    ensures ExecOk(n', genesis)
  {
    SameSlice(n.log, n'.log, Settled(n), 0, n.applied);
    SameSlice(n.log, n'.log, Settled(n), n.applied, n.applied + |n.batch|);
  }

  lemma SameSlice(x: Log, y: Log, k: nat, i: nat, j: nat)
    requires k <= |x| && k <= |y| && x[..k] == y[..k] && i <= j <= k
    ensures x[i..j] == y[i..j]
  {
  }

  /** Applying the head of the batch advances the fold by one entry. */
  lemma ApplyExec(c: Config, h: History, n: Node, genesis: Bank)
    requires HistoryOk(c, h) && Rooted(h, n.log) && ExecOk(n, genesis) && n.batch != []
    ensures ExecOk(ApplyNext(n), genesis) && Settled(ApplyNext(n)) == Settled(n)
  {
    IndexOf(c, h, n.log, n.applied);
    ApplyHead(n, genesis);
  }

  lemma ApplyHead(n: Node, genesis: Bank)
    requires ExecOk(n, genesis) && n.batch != [] && n.log[n.applied].index == n.applied + 1
    ensures ExecOk(ApplyNext(n), genesis) && Settled(ApplyNext(n)) == Settled(n)
  {
    FoldStep(genesis, n.log, n.applied);
  }

  lemma ExecuteKeeps(s: State, i: NodeId, genesis: Bank)
    requires Inv(s, genesis) && i in s.ns
    ensures Inv(s.(ns := s.ns[i := ApplyNext(s.ns[i])]), genesis)
  {
    var n := s.ns[i];
    assert NodeOk(s.c, s.h, n, genesis);
    if n.batch == [] {
      assert s.ns[i := n] == s.ns;
    } else {
      ApplyExec(s.c, s.h, n, genesis);
      ExecStep(s, ApplyNext(n), genesis);
    }
  }

  /** The executor may change its own fields without moving what is settled. */
  lemma ExecStep(s: State, n': Node, genesis: Bank)
    requires Inv(s, genesis) && n'.id in s.ns
    requires n' == s.ns[n'.id].(applied := n'.applied, batch := n'.batch, bank := n'.bank)
    requires ExecOk(n', genesis) && Settled(n') == Settled(s.ns[n'.id])
    ensures Inv(s.(ns := s.ns[n'.id := n']), genesis)
  {
    var n := s.ns[n'.id];
    assert NodeOk(s.c, s.h, n, genesis);
    forall t | t in n'.workers ensures WorkerOk(n', n'.workers[t]) {
      assert WorkerOk(n, n.workers[t]);
    }
    LocalStep(s, n', genesis);
  }

  lemma CrashKeeps(s: State, i: NodeId, genesis: Bank)
    requires Inv(s, genesis) && i in s.ns
    ensures Inv(s.(ns := s.ns[i := Restart(s.ns[i])]), genesis)
  {
    var n := s.ns[i];
    assert NodeOk(s.c, s.h, n, genesis);
    var n' := Restart(n);
    SafePrefix(s.c, s.h, n.log[..n.applied], n.log[..Settled(n)], n.term, n.term);
    LocalStep(s, n', genesis);
  }
}
