/** Client appends, AppendEntries and its replies keep the invariant. */
module ReplicationSteps {
  import opened Quorum
  import opened Bank
  import opened NodeSpec
  import opened Cluster
  import opened Invariant
  import opened HistoryFacts
  import opened Frame
  import opened Steps
  import opened ElectionSteps
  import opened VoteSteps

  // ---------- a client command ----------

  ghost predicate Reigns(c: Config, h: History, n: Node, genesis: Bank) {
    && HistoryOk(c, h) && NodeOk(c, h, n, genesis) && n.role == LEADER
    && n.term in h.reigns && h.reigns[n.term].leader == n.id && n.log == h.reigns[n.term].log
  }

  predicate Leads(s: State, i: NodeId) {
    i in s.ns && s.ns[i].role == LEADER
  }

  lemma LeaderFacts(s: State, i: NodeId, genesis: Bank)
    requires Inv(s, genesis) && Leads(s, i)
    ensures s.ns[i].id == i && Reigns(s.c, s.h, s.ns[i], genesis)
  {
    assert NodeOk(s.c, s.h, s.ns[i], genesis);
    assert RegalAt(s.h, s.ns[i], s.ns[i].term);
  }

  function Grown(h: History, n: Node, cmd: Command): History
    requires n.term in h.reigns
  {
    Grow(h, n.term, ClientAppend(n, cmd).log)
  }

  lemma GrowExtends(c: Config, h: History, n: Node, cmd: Command, genesis: Bank)
    requires Reigns(c, h, n, genesis)
    ensures Extends(h, Grown(h, n, cmd)) && AcksOk(Grown(h, n, cmd))
    ensures forall q :: q != n.id ==> Silent(h, Grown(h, n, cmd), q)
  {
    assert ReignOk(c, h, n.term);
  }

  lemma GrowOwnReign(c: Config, h: History, n: Node, cmd: Command, genesis: Bank)
    requires Reigns(c, h, n, genesis) && ReignOk(c, h, n.term)
    ensures ReignOk(c, Grown(h, n, cmd), n.term)
  {
    GrowExtends(c, h, n, cmd, genesis);
    RootedMono(h, Grown(h, n, cmd), h.reigns[n.term].start);
  }

  lemma GrowReign(c: Config, h: History, n: Node, cmd: Command, t: nat, genesis: Bank)
    requires Reigns(c, h, n, genesis) && t in h.reigns
    ensures ReignOk(c, Grown(h, n, cmd), t)
  {
    assert ReignOk(c, h, t);
    if t == n.term {
      GrowOwnReign(c, h, n, cmd, genesis);
    } else {
      GrowExtends(c, h, n, cmd, genesis);
      ReignMono(c, h, Grown(h, n, cmd), t);
    }
  }

  lemma GrowReigns(c: Config, h: History, n: Node, cmd: Command, genesis: Bank)
    requires Reigns(c, h, n, genesis)
    ensures ReignsOk(c, Grown(h, n, cmd))
  {
    forall t | t in Grown(h, n, cmd).reigns ensures ReignOk(c, Grown(h, n, cmd), t) {
      GrowReign(c, h, n, cmd, t, genesis);
    }
  }

  lemma GrowHistory(c: Config, h: History, n: Node, cmd: Command, genesis: Bank)
    requires Reigns(c, h, n, genesis)
    ensures HistoryOk(c, Grown(h, n, cmd))
  {
    var h' := Grown(h, n, cmd);
    GrowExtends(c, h, n, cmd, genesis);
    GrowReigns(c, h, n, cmd, genesis);
    NewAckBallots(c, h, h', n, n.term);
  }

  lemma GrowAck(c: Config, h: History, n: Node, cmd: Command, genesis: Bank)
    requires Reigns(c, h, n, genesis)
    ensures AcksOk(Grown(h, n, cmd)) && AckOk(Grown(h, n, cmd), ClientAppend(n, cmd))
  {
    var h', n' := Grown(h, n, cmd), ClientAppend(n, cmd);
    GrowExtends(c, h, n, cmd, genesis);
    forall t, j: nat | t in h'.reigns && j <= Ack(h', t, n'.id) ensures Kept(h', t, j, n'.log, n'.term) {
      if t != n.term {
        assert Kept(h, t, j, n.log, n.term);
      }
    }
  }

  lemma GrowRegal(c: Config, h: History, n: Node, cmd: Command, genesis: Bank)
    requires Reigns(c, h, n, genesis)
    ensures RegalOk(Grown(h, n, cmd), ClientAppend(n, cmd)) && VoteOk(Grown(h, n, cmd), ClientAppend(n, cmd))
  {
    var h', n' := Grown(h, n, cmd), ClientAppend(n, cmd);
    forall t | t in h'.reigns ensures RegalAt(h', n', t) {
      assert RegalAt(h, n, t);
    }
    forall t | (t, n'.id) in h'.ballots ensures VoteAt(h', n', t) {
      assert VoteAt(h, n, t);
    }
  }

  lemma GrowLog(c: Config, h: History, n: Node, cmd: Command, genesis: Bank)
    requires Reigns(c, h, n, genesis)
    ensures LogOk(Grown(h, n, cmd), ClientAppend(n, cmd)) && SafeOk(c, Grown(h, n, cmd), ClientAppend(n, cmd))
    ensures ExecOk(ClientAppend(n, cmd), genesis)
  {
    var h', n' := Grown(h, n, cmd), ClientAppend(n, cmd);
    GrowExtends(c, h, n, cmd, genesis);
    GrowReign(c, h, n, cmd, n.term, genesis);
    ReignRooted(c, h', n.term);
    assert n'.log[..Settled(n)] == n.log[..Settled(n)];
    SafeMono(c, h, h', n.log[..Settled(n)], n.term);
    ExecCarries(n, n', genesis);
  }

  lemma GrowNode(c: Config, h: History, n: Node, cmd: Command, genesis: Bank)
    requires Reigns(c, h, n, genesis)
    ensures AcksOk(Grown(h, n, cmd)) && NodeOk(c, Grown(h, n, cmd), ClientAppend(n, cmd), genesis)
  {
    var n' := ClientAppend(n, cmd);
    GrowAck(c, h, n, cmd, genesis);
    GrowRegal(c, h, n, cmd, genesis);
    GrowLog(c, h, n, cmd, genesis);
    forall w | w in n'.workers ensures WorkerOk(n', n'.workers[w]) {
      assert WorkerOk(n, n.workers[w]);
    }
  }

  lemma GrowProgress(c: Config, h: History, n: Node, cmd: Command, p: Node, genesis: Bank)
    requires Reigns(c, h, n, genesis) && p.id != n.id && LogOk(h, p) && ProgressOk(h, n, p)
    ensures ProgressOk(Grown(h, n, cmd), ClientAppend(n, cmd), p)
  {
    GrowExtends(c, h, n, cmd, genesis);
    GrowHistory(c, h, n, cmd, genesis);
    StableSameLog(c, h, Grown(h, n, cmd), p, p);
  }

  lemma GrowKeeps(s: State, i: NodeId, cmd: Command, genesis: Bank)
    requires Inv(s, genesis) && Leads(s, i) && s.ns[i].id == i && Reigns(s.c, s.h, s.ns[i], genesis)
    ensures Inv(DoClient(s, i, cmd), genesis)
  {
    var n, h := s.ns[i], s.h;
    var s' := DoClient(s, i, cmd);
    GrowExtends(s.c, h, n, cmd, genesis);
    GrowHistory(s.c, h, n, cmd, genesis);
    GrowNode(s.c, h, n, cmd, genesis);
    forall p | p in s.ns && p != i ensures ProgressOk(s'.h, s'.ns[i], s.ns[p]) {
      assert NodeOk(s.c, h, s.ns[p], genesis);
      assert ProgressOk(h, n, s.ns[p]);
      GrowProgress(s.c, h, n, cmd, s.ns[p], genesis);
    }
    OneNodeMoves(s, s', i, genesis);
  }

  lemma ClientKeeps(s: State, i: NodeId, cmd: Command, genesis: Bank)
    requires Inv(s, genesis) && i in s.ns
    ensures Inv(DoClient(s, i, cmd), genesis)
  {
    assert NodeOk(s.c, s.h, s.ns[i], genesis);
    if s.ns[i].role == LEADER {
      LeaderFacts(s, i, genesis);
      GrowKeeps(s, i, cmd, genesis);
    } else {
      assert DoClient(s, i, cmd) == s;
    }
  }

  // ---------- building and sending AppendEntries ----------

  /** A message built from a leader's own tables, prevLogIndex being nextIndex - 1. */
  lemma BuiltArgsOk(c: Config, h: History, n: Node, p: NodeId)
    requires n.term in h.reigns && h.reigns[n.term].leader == n.id && n.log == h.reigns[n.term].log
    requires 1 <= Lookup(n.next, p) <= |n.log| + 1
    requires n.commit <= |n.log| && Safe(c, h, n.log[..n.commit], n.term)
    ensures ArgsOk(c, h, BuildAppend(n, p, Lookup(n.next, p) - 1))
  {
  }

  /** The message a primed thread of a present leader builds. */
  predicate Sends(s: State, i: NodeId, tid: nat) {
    Enabled(s, Send(i, tid)) && Leads(s, i)
  }

  lemma SentArgs(c: Config, h: History, n: Node, p: Node, w: Worker, genesis: Bank)
    requires Reigns(c, h, n, genesis) && ProgressOk(h, n, p) && WorkerOk(n, w)
    requires w.Primed? && w.peer == p.id && w.prev + 1 == Lookup(n.next, p.id)
    ensures var a := BuildAppend(n, p.id, w.prev);
            ArgsOk(c, h, a) && Floor(h, a.term, p, a.prev) && WorkerOk(n, Waiting(p.id, a))
  {
    SafePrefix(c, h, n.log[..n.commit], n.log[..Settled(n)], n.term, n.term);
    BuiltArgsOk(c, h, n, p.id);
  }

  lemma SentMessage(s: State, i: NodeId, tid: nat, genesis: Bank)
    requires Inv(s, genesis) && Sends(s, i, tid)
    ensures var n := s.ns[i]; var w := n.workers[tid]; var a := BuildAppend(n, w.peer, w.prev);
            && n.id == i && MsgOk(s.c, s.ns, s.h, AppendReq(w.peer, a)) && WorkerOk(n, Waiting(w.peer, a))
  {
    var n := s.ns[i];
    var w := n.workers[tid];
    LeaderFacts(s, i, genesis);
    assert NodeOk(s.c, s.h, n, genesis) && WorkerOk(n, w);
    assert NodeOk(s.c, s.h, s.ns[w.peer], genesis);
    assert ProgressOk(s.h, n, s.ns[w.peer]);
    SentArgs(s.c, s.h, n, s.ns[w.peer], w, genesis);
  }

  lemma LeaderSendKeeps(s: State, i: NodeId, tid: nat, genesis: Bank)
    requires Inv(s, genesis) && Sends(s, i, tid)
    ensures Inv(DoSend(s, i, tid), genesis)
  {
    var n := s.ns[i];
    var w := n.workers[tid];
    var a := BuildAppend(n, w.peer, w.prev);
    var s1 := s.(net := s.net + {AppendReq(w.peer, a)});
    SentMessage(s, i, tid, genesis);
    ThreadMoves(s1, i, tid, Waiting(w.peer, a), genesis);
  }

  lemma SendStepKeeps(s: State, i: NodeId, tid: nat, genesis: Bank)
    requires Inv(s, genesis) && Enabled(s, Send(i, tid))
    ensures Inv(DoSend(s, i, tid), genesis)
  {
    if Leads(s, i) {
      LeaderSendKeeps(s, i, tid, genesis);
    } else {
      var n := s.ns[i];
      assert NodeOk(s.c, s.h, n, genesis);
      assert WorkerOk(n, n.workers[tid]);
      ThreadMoves(s, i, tid, Returned(n.workers[tid].peer), genesis);
    }
  }

  // ---------- the append loop against a leader's log ----------

  /** Everything x shares with g from the start is still in y. */
  ghost predicate KeepsShared(x: Log, g: Log, y: Log) {
    forall k {:trigger x[..k]} :: 0 <= k <= |x| && k <= |g| && x[..k] == g[..k] ==> k <= |y| && y[..k] == x[..k]
  }

  lemma SharedStays(x: Log, g: Log, y: Log, z: Log)
    requires KeepsShared(x, g, y) && z <= x && z <= g
    ensures z <= y
  {
    assert x[..|z|] == z && g[..|z|] == z;
  }

  /** A slice of the leader's log g, accepted at prev: the loop either leaves the log as it is or makes
      it the leader's up to the end of the slice, and it never removes what agreed with the leader. */
  lemma {:induction false} SpliceReign(h: History, x: Log, g: Log, prev: nat, entries: Log)
    requires Rooted(h, x) && Rooted(h, g)
    requires prev <= |x| && prev + |entries| <= |g| && x[..prev] == g[..prev]
    requires entries == g[prev..prev + |entries|]
    ensures var y := Splice(x, prev, entries);
            && |y| >= prev + |entries| && y[..prev + |entries|] == g[..prev + |entries|]
            && (y == x || y == g[..prev + |entries|])
            && KeepsShared(x, g, y)
    decreases |entries|
  {
    if entries != [] {
      if prev < |x| && x[prev].term == entries[0].term {
        Matching(h, x, g, prev);
        SpliceReign(h, x, g, prev + 1, entries[1..]);
      }
    }
  }

  /** The consistency check: an accepted message really meets the log at prev. */
  lemma AcceptedMeets(c: Config, h: History, x: Log, a: AppendArgs)
    requires HistoryOk(c, h) && Rooted(h, x) && ArgsOk(c, h, a) && Accepts(x, a.prev, a.prevTerm)
    ensures a.prev <= |x| && x[..a.prev] == h.reigns[a.term].log[..a.prev]
  {
    if a.prev > 0 {
      assert ReignOk(c, h, a.term);
      ReignRooted(c, h, a.term);
      Matching(h, x, h.reigns[a.term].log, a.prev - 1);
    }
  }

  /** A message with entries, at or above the parting point, leaves a prefix of the leader's log. */
  lemma AcceptedSyncs(c: Config, h: History, n: Node, a: AppendArgs)
    requires HistoryOk(c, h) && LogOk(h, n) && n.term == a.term && ArgsOk(c, h, a) && Accepts(n.log, a.prev, a.prevTerm)
    requires Floor(h, a.term, n, a.prev) && a.entries != []
    ensures a.prev <= |n.log| && Splice(n.log, a.prev, a.entries) <= h.reigns[a.term].log
  {
    var g := h.reigns[a.term].log;
    AcceptedMeets(c, h, n.log, a);
    assert ReignOk(c, h, a.term);
    ReignRooted(c, h, a.term);
    SpliceReign(h, n.log, g, a.prev, a.entries);
    assert a.prev == |n.log| ==> n.log == n.log[..a.prev];
    if a.prev < |n.log| && !(n.log <= g) {
      if n.log[a.prev].term == g[a.prev].term {
        Matching(h, n.log, g, a.prev);
      }
      assert a.entries[0] == g[a.prev];
    }
  }

  // ---------- an accepted AppendEntries ----------

  /** A follower n in the message's own term takes the message a. */
  ghost predicate Takes(c: Config, h: History, n: Node, a: AppendArgs, genesis: Bank) {
    && HistoryOk(c, h) && NodeOk(c, h, n, genesis) && ArgsOk(c, h, a)
    && Floor(h, a.term, n, a.prev)
    && n.id != a.leader && n.role == FOLLOWER && n.term == a.term
    && Accepts(n.log, a.prev, a.prevTerm)
  }

  function NewLog(n: Node, a: AppendArgs): Log
    requires Accepts(n.log, a.prev, a.prevTerm)
  {
    Splice(n.log, a.prev, a.entries)
  }

  function NewNode(n: Node, a: AppendArgs): Node {
    HandleAppend(n, a).node
  }

  function Reach(a: AppendArgs): nat { a.prev + |a.entries| }

  function NewHistory(h: History, n: Node, a: AppendArgs): History {
    Acknowledge(h, a.term, n.id, Reach(a))
  }

  /** What the append loop does to the log, seen from the leader's log. */
  lemma TakenLog(c: Config, h: History, n: Node, a: AppendArgs, genesis: Bank)
    requires Takes(c, h, n, a, genesis)
    ensures var x, y, g := n.log, NewLog(n, a), h.reigns[a.term].log;
            && Reach(a) <= |y| && Reach(a) <= |g| && y[..Reach(a)] == g[..Reach(a)]
            && (y == x || y == g[..Reach(a)])
            && KeepsShared(x, g, y)
            && (x <= g ==> y <= g)
  {
    assert ReignOk(c, h, a.term);
    ReignRooted(c, h, a.term);
    AcceptedMeets(c, h, n.log, a);
    SpliceReign(h, n.log, h.reigns[a.term].log, a.prev, a.entries);
  }

  lemma TakenSynced(c: Config, h: History, n: Node, a: AppendArgs, genesis: Bank)
    requires Takes(c, h, n, a, genesis) && a.entries != []
    ensures NewLog(n, a) <= h.reigns[a.term].log
  {
    AcceptedSyncs(c, h, n, a);
  }

  lemma TakenLogOk(c: Config, h: History, n: Node, a: AppendArgs, genesis: Bank)
    requires Takes(c, h, n, a, genesis)
    ensures LogOk(h, NewNode(n, a))
  {
    TakenLog(c, h, n, a, genesis);
    assert ReignOk(c, h, a.term);
    ReignRooted(c, h, a.term);
    RootedPrefix(h, h.reigns[a.term].log, Reach(a));
  }

  /** What was settled stays: truncation never reaches a committed or applied entry. */
  lemma TakenSettled(c: Config, h: History, n: Node, a: AppendArgs, genesis: Bank)
    requires Takes(c, h, n, a, genesis)
    ensures Settled(n) <= |n.log| && Settled(n) <= |NewLog(n, a)| && NewLog(n, a)[..Settled(n)] == n.log[..Settled(n)]
  {
    TakenLog(c, h, n, a, genesis);
    var x := n.log[..Settled(n)];
    SafeInReign(c, h, x, n.term, a.term);
    SharedStays(n.log, h.reigns[a.term].log, NewLog(n, a), x);
  }

  /** The follower's new commit index lies within what it shares with the leader, although the code
      bounds it by its last index and not by the last new entry. */
  lemma CommitBound(c: Config, h: History, n: Node, a: AppendArgs, genesis: Bank)
    requires Takes(c, h, n, a, genesis)
    ensures var x := NewLog(n, a)[..Min(a.commit, |NewLog(n, a)|)];
            x <= h.reigns[a.term].log && Safe(c, h, x, a.term)
  {
    TakenLog(c, h, n, a, genesis);
    var y, g := NewLog(n, a), h.reigns[a.term].log;
    var k := Min(a.commit, |y|);
    if a.entries == [] {
      assert y[..k] == y[..Reach(a)][..k] == g[..Reach(a)][..k];
    } else {
      TakenSynced(c, h, n, a, genesis);
    }
    assert y[..k] <= g[..a.commit];
    SafePrefix(c, h, y[..k], g[..a.commit], a.term, a.term);
  }

  lemma TakenSafe(c: Config, h: History, n: Node, a: AppendArgs, genesis: Bank)
    requires Takes(c, h, n, a, genesis)
    ensures SafeOk(c, h, NewNode(n, a)) && NewNode(n, a).commit >= n.commit
  {
    TakenSettled(c, h, n, a, genesis);
    CommitBound(c, h, n, a, genesis);
  }

  lemma TakenExec(c: Config, h: History, n: Node, a: AppendArgs, genesis: Bank)
    requires Takes(c, h, n, a, genesis)
    ensures ExecOk(NewNode(n, a), genesis)
  {
    TakenSettled(c, h, n, a, genesis);
    TakenSafe(c, h, n, a, genesis);
    ExecCarries(n, NewNode(n, a), genesis);
  }

  lemma TakenExtends(c: Config, h: History, n: Node, a: AppendArgs, genesis: Bank)
    requires Takes(c, h, n, a, genesis)
    ensures Extends(h, NewHistory(h, n, a)) && AcksOk(NewHistory(h, n, a))
    ensures forall q :: q != n.id ==> Silent(h, NewHistory(h, n, a), q)
  {
  }

  lemma TakenReigns(c: Config, h: History, n: Node, a: AppendArgs, genesis: Bank)
    requires Takes(c, h, n, a, genesis)
    ensures ReignsOk(c, NewHistory(h, n, a))
  {
    var h' := NewHistory(h, n, a);
    TakenExtends(c, h, n, a, genesis);
    forall t | t in h'.reigns ensures ReignOk(c, h', t) {
      assert ReignOk(c, h, t);
      ReignMono(c, h, h', t);
    }
  }

  lemma TakenHistory(c: Config, h: History, n: Node, a: AppendArgs, genesis: Bank)
    requires Takes(c, h, n, a, genesis)
    ensures HistoryOk(c, NewHistory(h, n, a))
  {
    var h' := NewHistory(h, n, a);
    TakenExtends(c, h, n, a, genesis);
    TakenReigns(c, h, n, a, genesis);
    NewAckBallots(c, h, h', n, a.term);
  }

  lemma TakenAckHere(c: Config, h: History, n: Node, a: AppendArgs, j: nat, genesis: Bank)
    requires Takes(c, h, n, a, genesis) && j <= Max(Ack(h, a.term, n.id), Reach(a))
    ensures j <= |h.reigns[a.term].log| && h.reigns[a.term].log[..j] <= NewLog(n, a)
  {
    TakenLog(c, h, n, a, genesis);
    var y, g := NewLog(n, a), h.reigns[a.term].log;
    if j <= Reach(a) {
      assert y[..j] == y[..Reach(a)][..j] && g[..j] == g[..Reach(a)][..j];
    } else {
      assert Kept(h, a.term, j, n.log, n.term);
      SharedStays(n.log, g, y, g[..j]);
    }
  }

  lemma TakenAckEarlier(c: Config, h: History, n: Node, a: AppendArgs, t: nat, j: nat, genesis: Bank)
    requires Takes(c, h, n, a, genesis) && t < a.term && t in h.reigns && j <= Ack(h, t, n.id)
    ensures Kept(h, t, j, NewLog(n, a), n.term)
  {
    TakenLog(c, h, n, a, genesis);
    var x := h.reigns[t].log[..j];
    assert Kept(h, t, j, n.log, n.term);
    if forall u :: u in h.reigns && t < u <= n.term ==> x <= h.reigns[u].start {
      assert ReignOk(c, h, a.term);
      assert x <= n.log && x <= h.reigns[a.term].log;
      SharedStays(n.log, h.reigns[a.term].log, NewLog(n, a), x);
    }
  }

  /** What the follower acknowledged in earlier terms, and now in this one, is in its new log. */
  lemma TakenAck(c: Config, h: History, n: Node, a: AppendArgs, genesis: Bank)
    requires Takes(c, h, n, a, genesis)
    ensures AcksOk(NewHistory(h, n, a)) && AckOk(NewHistory(h, n, a), NewNode(n, a))
  {
    var h', n' := NewHistory(h, n, a), NewNode(n, a);
    TakenExtends(c, h, n, a, genesis);
    forall t, j: nat | t in h'.reigns && j <= Ack(h', t, n'.id) ensures Kept(h', t, j, n'.log, n'.term) {
      if t == a.term {
        TakenAckHere(c, h, n, a, j, genesis);
      } else if t < a.term {
        TakenAckEarlier(c, h, n, a, t, j, genesis);
      } else {
        assert h'.reigns[t].log[..j] == [];
      }
    }
  }

  lemma TakenRegal(c: Config, h: History, n: Node, a: AppendArgs, genesis: Bank)
    requires Takes(c, h, n, a, genesis)
    ensures RegalOk(NewHistory(h, n, a), NewNode(n, a)) && VoteOk(NewHistory(h, n, a), NewNode(n, a))
  {
    var h', n' := NewHistory(h, n, a), NewNode(n, a);
    forall t | t in h'.reigns ensures RegalAt(h', n', t) {
      assert RegalAt(h, n, t);
    }
    forall t | (t, n'.id) in h'.ballots ensures VoteAt(h', n', t) {
      assert VoteAt(h, n, t);
    }
  }

  lemma TakenNode(c: Config, h: History, n: Node, a: AppendArgs, genesis: Bank)
    requires Takes(c, h, n, a, genesis)
    ensures AcksOk(NewHistory(h, n, a)) && NodeOk(c, NewHistory(h, n, a), NewNode(n, a), genesis)
  {
    var h', n' := NewHistory(h, n, a), NewNode(n, a);
    TakenExtends(c, h, n, a, genesis);
    TakenAck(c, h, n, a, genesis);
    TakenSafe(c, h, n, a, genesis);
    TakenExec(c, h, n, a, genesis);
    TakenLogOk(c, h, n, a, genesis);
    TakenRegal(c, h, n, a, genesis);
    RootedMono(h, h', n'.log);
    SafeMono(c, h, h', n'.log[..Settled(n')], n'.term);
    forall w | w in n'.workers ensures WorkerOk(n', n'.workers[w]) {
      assert WorkerOk(n, n.workers[w]);
    }
  }

  lemma TakenStable(c: Config, h: History, n: Node, a: AppendArgs, genesis: Bank)
    requires Takes(c, h, n, a, genesis)
    ensures Stable(h, NewHistory(h, n, a), n, NewNode(n, a))
  {
    TakenLog(c, h, n, a, genesis);
  }

  lemma TakenReply(c: Config, h: History, n: Node, a: AppendArgs, ns: map<NodeId, Node>, genesis: Bank)
    requires Takes(c, h, n, a, genesis)
    requires ns.Keys == c.nodes && n.id in ns && ns[n.id] == NewNode(n, a)
    ensures MsgOk(c, ns, NewHistory(h, n, a), AppendRep(n.id, a, a.term, true))
  {
    TakenExtends(c, h, n, a, genesis);
    ArgsMono(c, h, NewHistory(h, n, a), a);
    if a.entries != [] {
      TakenSynced(c, h, n, a, genesis);
    }
  }

  lemma TakenKeeps(s: State, m: Msg, genesis: Bank)
    requires Inv(s, genesis) && Enabled(s, OnAppendReq(m))
    requires Takes(s.c, s.h, s.ns[m.to], m.args, genesis)
    ensures Inv(DoAppendReq(s, m), genesis)
  {
    var n, a := s.ns[m.to], m.args;
    var s' := DoAppendReq(s, m);
    assert s' == State(s.c, s.ns[m.to := NewNode(n, a)], s.net + {AppendRep(m.to, a, a.term, true)},
             NewHistory(s.h, n, a));
    assert NodeOk(s.c, s.h, n, genesis);
    TakenExtends(s.c, s.h, n, a, genesis);
    TakenHistory(s.c, s.h, n, a, genesis);
    TakenNode(s.c, s.h, n, a, genesis);
    TakenStable(s.c, s.h, n, a, genesis);
    TakenReply(s.c, s.h, n, a, s'.ns, genesis);
    OneNodeMoves(s, s', m.to, genesis);
  }

  // ---------- a refused AppendEntries ----------

  lemma RefusedKeeps(s: State, m: Msg, genesis: Bank)
    requires Inv(s, genesis) && Enabled(s, OnAppendReq(m))
    requires s.ns[m.to].role == FOLLOWER && s.ns[m.to].term == m.args.term
    requires !Accepts(s.ns[m.to].log, m.args.prev, m.args.prevTerm)
    ensures Inv(DoAppendReq(s, m), genesis)
  {
    assert MsgOk(s.c, s.ns, s.h, m);
    var s' := DoAppendReq(s, m);
    assert s'.ns == s.ns;
  }

  lemma StaleKeeps(s: State, m: Msg, genesis: Bank)
    requires Inv(s, genesis) && Enabled(s, OnAppendReq(m)) && m.args.term < s.ns[m.to].term
    ensures Inv(DoAppendReq(s, m), genesis)
  {
    assert MsgOk(s.c, s.ns, s.h, m);
    var s' := DoAppendReq(s, m);
    assert s'.ns == s.ns;
  }

  lemma InTermKeeps(s: State, m: Msg, genesis: Bank)
    requires Inv(s, genesis) && Enabled(s, OnAppendReq(m))
    requires s.ns[m.to].role == FOLLOWER && s.ns[m.to].term == m.args.term
    ensures Inv(DoAppendReq(s, m), genesis)
  {
    if Accepts(s.ns[m.to].log, m.args.prev, m.args.prevTerm) {
      assert NodeOk(s.c, s.h, s.ns[m.to], genesis);
      assert MsgOk(s.c, s.ns, s.h, m);
      TakenKeeps(s, m, genesis);
    } else {
      RefusedKeeps(s, m, genesis);
    }
  }

  /** The state after the term rules of handleAppendEntries, before its log check. */
  lemma AdoptKeeps(s: State, m: Msg, genesis: Bank)
    requires Inv(s, genesis) && Enabled(s, OnAppendReq(m)) && m.args.term >= s.ns[m.to].term
    ensures Inv(s.(ns := s.ns[m.to := Adopt(s.ns[m.to], m.args.term)]), genesis)
  {
    var n := s.ns[m.to];
    assert NodeOk(s.c, s.h, n, genesis);
    assert MsgOk(s.c, s.ns, s.h, m);
    if m.args.term > n.term {
      RaiseKeeps(s, m.to, m.args.term, genesis);
    } else if n.role != FOLLOWER {
      ResetKeeps(s, m.to, genesis);
    } else {
      assert s.ns[m.to := n] == s.ns;
    }
  }

  lemma AppendReqKeeps(s: State, m: Msg, genesis: Bank)
    requires Inv(s, genesis) && Enabled(s, OnAppendReq(m))
    ensures Inv(DoAppendReq(s, m), genesis)
  {
    var n := s.ns[m.to];
    if m.args.term < n.term {
      StaleKeeps(s, m, genesis);
    } else {
      var s1 := s.(ns := s.ns[m.to := Adopt(n, m.args.term)]);
      AdoptKeeps(s, m, genesis);
      InTermKeeps(s1, m, genesis);
      MapPutTwice(s.ns, m.to, s1.ns[m.to], DoAppendReq(s, m).ns[m.to]);
      assert DoAppendReq(s1, m) == DoAppendReq(s, m);
    }
  }
}
