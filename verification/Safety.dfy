/** The safety theorems, for every run. */
module Safety {
  import opened Quorum
  import opened Bank
  import opened NodeSpec
  import opened Cluster
  import opened Invariant
  import opened HistoryFacts
  import opened Frame
  import opened Steps
  import opened ElectionSteps
  import opened VoteSteps
  import opened ReplicationSteps
  import opened ReplySteps

  // ---------- the invariant over runs ----------

  lemma StepKeeps(s: State, step: Step, genesis: Bank)
    requires Inv(s, genesis) && Enabled(s, step)
    ensures Inv(Do(s, step), genesis)
  {
    match step
    case Election(i) => ElectionKeeps(s, i, genesis);
    case OnVoteReq(m) => VoteReqKeeps(s, m, genesis);
    case OnVoteRep(m) => VoteRepKeeps(s, m, genesis);
    case Client(i, cmd) => ClientKeeps(s, i, cmd, genesis);
    case Spawn(i, tid, peer) => SpawnKeeps(s, i, tid, peer, genesis);
    case Prime(i, tid) => PrimeKeeps(s, i, tid, genesis);
    case Send(i, tid) => SendStepKeeps(s, i, tid, genesis);
    case OnAppendReq(m) => AppendReqKeeps(s, m, genesis);
    case OnAppendRep(i, tid, m) => AppendRepKeeps(s, i, tid, m, genesis);
    case Timeout(i, tid) => TimeoutKeeps(s, i, tid, genesis);
    case Finish(i, tid) => FinishKeeps(s, i, tid, genesis);
    case Fetch(i) => FetchKeeps(s, i, genesis);
    case Execute(i) => ExecuteKeeps(s, i, genesis);
    case Crash(i) => CrashKeeps(s, i, genesis);
  }

  lemma RunNext(ss: seq<State>, genesis: Bank, k: nat)
    requires Run(ss, genesis) && k + 1 < |ss|
    ensures Next(ss[k], ss[k + 1])
  {
    assert Next(ss[k], ss[k + 1]);
  }

  /** Every state of every run satisfies the invariant. */
  lemma {:induction false} RunOk(ss: seq<State>, genesis: Bank, k: nat)
    requires Run(ss, genesis) && k < |ss|
    ensures Inv(ss[k], genesis)
  {
    if k > 0 {
      RunOk(ss, genesis, k - 1);
      RunNext(ss, genesis, k - 1);
      var step :| Enabled(ss[k - 1], step) && ss[k] == Do(ss[k - 1], step);
      StepKeeps(ss[k - 1], step, genesis);
    }
  }

  lemma AcknowledgeExtends(s: State, m: Msg, genesis: Bank)
    requires Inv(s, genesis) && Enabled(s, OnAppendReq(m))
    ensures Extends(s.h, DoAppendReq(s, m).h)
  {
  }

  lemma CrownStepExtends(s: State, m: Msg, genesis: Bank)
    requires Inv(s, genesis) && Enabled(s, OnVoteRep(m))
    ensures Extends(s.h, DoVoteRep(s, m).h)
  {
    if Counts(s, m) {
      var n := Tally(s.ns[m.candidate], m.from);
      TallyOk(s, m, genesis);
      assert NodeOk(s.c, s.h, s.ns[m.candidate], genesis);
      if |n.granted| == s.c.Needed() {
        CrownExtends(s.c, s.h, n, genesis);
      }
    }
  }

  lemma StepExtends(s: State, step: Step, genesis: Bank)
    requires Inv(s, genesis) && Enabled(s, step)
    ensures Extends(s.h, Do(s, step).h) && Do(s, step).c == s.c
  {
    match step
    case Client(i, cmd) =>
      if Leads(s, i) {
        LeaderFacts(s, i, genesis);
        GrowExtends(s.c, s.h, s.ns[i], cmd, genesis);
      }
    case OnAppendReq(m) => AcknowledgeExtends(s, m, genesis);
    case OnVoteRep(m) => CrownStepExtends(s, m, genesis);
    case _ =>
  }

  /** Every node of the cluster is there, under its own id. */
  predicate Housed(s: State) {
    s.ns.Keys == s.c.nodes && forall i :: i in s.ns ==> s.ns[i].id == i
  }

  lemma RunHoused(ss: seq<State>, genesis: Bank, k: nat)
    requires Run(ss, genesis) && k < |ss|
    ensures Housed(ss[k])
  {
    RunOk(ss, genesis, k);
    forall i | i in ss[k].ns ensures ss[k].ns[i].id == i {
      assert NodeOk(ss[k].c, ss[k].h, ss[k].ns[i], genesis);
    }
  }

  lemma RunStepExtends(ss: seq<State>, genesis: Bank, k: nat)
    requires Run(ss, genesis) && k + 1 < |ss|
    ensures Extends(ss[k].h, ss[k + 1].h) && ss[k + 1].c == ss[k].c
  {
    RunOk(ss, genesis, k);
    RunNext(ss, genesis, k);
    var step :| Enabled(ss[k], step) && ss[k + 1] == Do(ss[k], step);
    StepExtends(ss[k], step, genesis);
  }

  /** The history of an earlier state is part of that of a later one. */
  lemma {:induction false} RunExtends(ss: seq<State>, genesis: Bank, i: nat, j: nat)
    requires Run(ss, genesis) && i <= j < |ss|
    ensures Extends(ss[i].h, ss[j].h) && ss[j].c == ss[i].c
    decreases j
  {
    if i < j {
      RunExtends(ss, genesis, i, j - 1);
      RunStepExtends(ss, genesis, j - 1);
    }
  }

  // ---------- election safety ----------

  /** At most one node is ever leader in a term, over a whole run with crashes and in-term vote resets. */
  lemma OneLeaderPerTerm(ss: seq<State>, genesis: Bank, i: nat, j: nat, a: NodeId, b: NodeId)
    requires Run(ss, genesis) && i <= j < |ss| && a in ss[i].ns && b in ss[j].ns
    requires ss[i].ns[a].role == LEADER && ss[j].ns[b].role == LEADER && ss[i].ns[a].term == ss[j].ns[b].term
    ensures a == b
  {
    RunOk(ss, genesis, i);
    RunOk(ss, genesis, j);
    RunExtends(ss, genesis, i, j);
    assert NodeOk(ss[i].c, ss[i].h, ss[i].ns[a], genesis);
    assert NodeOk(ss[j].c, ss[j].h, ss[j].ns[b], genesis);
    assert ReignLe(ss[i].h.reigns[ss[i].ns[a].term], ss[j].h.reigns[ss[i].ns[a].term]);
  }

  /** One vote per node and term is false here: any candidate that hears from the leader of its own
      term can vote again in that term. */
  lemma VotesTwiceInOneTerm(n: Node, a: AppendArgs, other: NodeId, lastIndex: nat, lastTerm: nat)
    requires n.role == CANDIDATE && n.votedFor == n.id && other != n.id && a.term == n.term
    requires UpToDate(lastTerm, lastIndex, HandleAppend(n, a).node.log)
    ensures var v := HandleVote(HandleAppend(n, a).node, n.term, other, lastIndex, lastTerm);
            v.ok && v.node.term == n.term && v.node.votedFor == other != n.votedFor
  {
  }

  // ---------- log matching ----------

  lemma LogMatching(ss: seq<State>, genesis: Bank, i: nat, a: NodeId, b: NodeId, k: nat)
    requires Run(ss, genesis) && i < |ss| && a in ss[i].ns && b in ss[i].ns
    requires k < |ss[i].ns[a].log| && k < |ss[i].ns[b].log|
    ensures ss[i].ns[a].log[k].term == ss[i].ns[b].log[k].term ==> ss[i].ns[a].log[..k + 1] == ss[i].ns[b].log[..k + 1]
  {
    RunOk(ss, genesis, i);
    assert NodeOk(ss[i].c, ss[i].h, ss[i].ns[a], genesis);
    assert NodeOk(ss[i].c, ss[i].h, ss[i].ns[b], genesis);
    if ss[i].ns[a].log[k].term == ss[i].ns[b].log[k].term {
      Matching(ss[i].h, ss[i].ns[a].log, ss[i].ns[b].log, k);
    }
  }

  lemma SliceMatching(h: History, x: Log, g: Log, p: nat, k: nat)
    requires Rooted(h, x) && Rooted(h, g) && p + k < |x| && p + k < |g| && x[p + k].term == g[p + k].term
    ensures x[p..p + k + 1] == g[p..p + k + 1] && TermAt(x, p) == TermAt(g, p)
  {
    Matching(h, x, g, p + k);
    var y, z := x[..p + k + 1], g[..p + k + 1];
    assert x[p..p + k + 1] == y[p..] && g[p..p + k + 1] == z[p..];
    if p > 0 {
      assert x[p - 1] == y[p - 1] && g[p - 1] == z[p - 1];
    }
  }

  /** Log matching against a message still in flight. */
  lemma MessageMatching(ss: seq<State>, genesis: Bank, i: nat, m: Msg, b: NodeId, k: nat)
    requires Run(ss, genesis) && i < |ss| && m in ss[i].net && m.AppendReq? && b in ss[i].ns
    requires k < |m.args.entries| && m.args.prev + k < |ss[i].ns[b].log|
    requires ss[i].ns[b].log[m.args.prev + k].term == m.args.entries[k].term
    ensures var x, p := ss[i].ns[b].log, m.args.prev;
            x[p..p + k + 1] == m.args.entries[..k + 1] && TermAt(x, p) == m.args.prevTerm
  {
    var s := ss[i];
    RunOk(ss, genesis, i);
    assert MsgOk(s.c, s.ns, s.h, m);
    assert NodeOk(s.c, s.h, s.ns[b], genesis);
    ArgsMatching(s.c, s.h, s.ns[b].log, m.args, k);
  }

  lemma ArgsMatching(c: Config, h: History, x: Log, a: AppendArgs, k: nat)
    requires HistoryOk(c, h) && ArgsOk(c, h, a) && Rooted(h, x)
    requires k < |a.entries| && a.prev + k < |x| && x[a.prev + k].term == a.entries[k].term
    ensures x[a.prev..a.prev + k + 1] == a.entries[..k + 1] && TermAt(x, a.prev) == a.prevTerm
  {
    assert ReignOk(c, h, a.term);
    ReignRooted(c, h, a.term);
    var g := h.reigns[a.term].log;
    assert a.entries[k] == g[a.prev + k];
    SliceMatching(h, x, g, a.prev, k);
    assert g[a.prev..a.prev + k + 1] == a.entries[..k + 1];
  }

  // ---------- state machine safety and leader completeness ----------

  /** What a node has committed or applied by state i is safe in every later state. */
  lemma SettledLater(ss: seq<State>, genesis: Bank, i: nat, j: nat, a: NodeId)
    requires Run(ss, genesis) && i <= j < |ss| && a in ss[i].ns
    ensures var n := ss[i].ns[a];
            Settled(n) <= |n.log| && Safe(ss[j].c, ss[j].h, n.log[..Settled(n)], n.term)
  {
    RunOk(ss, genesis, i);
    RunExtends(ss, genesis, i, j);
    assert NodeOk(ss[i].c, ss[i].h, ss[i].ns[a], genesis);
    SafeMono(ss[i].c, ss[i].h, ss[j].h, ss[i].ns[a].log[..Settled(ss[i].ns[a])], ss[i].ns[a].term);
  }

  /** State machine safety: whatever any node ever commits or applies at an index, every node that ever
      commits or applies that index has the same entry there, across time and crashes. */
  lemma StateMachineSafety(ss: seq<State>, genesis: Bank, i: nat, j: nat, a: NodeId, b: NodeId, k: nat)
    requires Run(ss, genesis) && i <= j < |ss| && a in ss[i].ns && b in ss[j].ns
    requires k <= Settled(ss[i].ns[a]) && k <= Settled(ss[j].ns[b])
    ensures k <= |ss[i].ns[a].log| && k <= |ss[j].ns[b].log| && ss[i].ns[a].log[..k] == ss[j].ns[b].log[..k]
  {
    var n, p := ss[i].ns[a], ss[j].ns[b];
    RunOk(ss, genesis, j);
    SettledLater(ss, genesis, i, j, a);
    SettledLater(ss, genesis, j, j, b);
    SafeComparable(ss[j].c, ss[j].h, n.log[..Settled(n)], p.log[..Settled(p)], n.term, p.term);
    assert n.log[..k] == n.log[..Settled(n)][..k] && p.log[..k] == p.log[..Settled(p)][..k];
  }

  /** A leader of a later term, whenever it leads, holds everything a node had settled. */
  lemma LeadersHoldCommitted(ss: seq<State>, genesis: Bank, i: nat, j: nat, a: NodeId, b: NodeId)
    requires Run(ss, genesis) && i < |ss| && j < |ss| && a in ss[i].ns && b in ss[j].ns
    requires ss[j].ns[b].role == LEADER && ss[j].ns[b].term > ss[i].ns[a].term
    ensures var n := ss[i].ns[a]; Settled(n) <= |n.log| && n.log[..Settled(n)] <= ss[j].ns[b].log
  {
    var k := if i < j then j else i;
    var n, l := ss[i].ns[a], ss[j].ns[b];
    SettledLater(ss, genesis, i, k, a);
    RunOk(ss, genesis, j);
    RunOk(ss, genesis, k);
    RunExtends(ss, genesis, j, k);
    LeaderFacts(ss[j], b, genesis);
    assert ReignLe(ss[j].h.reigns[l.term], ss[k].h.reigns[l.term]);
    assert ReignOk(ss[j].c, ss[j].h, l.term);
    var x := n.log[..Settled(n)];
    SafeInStart(ss[k].c, ss[k].h, x, n.term, l.term);
    PrefixChain(x, ss[j].h.reigns[l.term].start, l.log);
  }

  lemma SafeInStart(c: Config, h: History, x: Log, hi: nat, u: nat)
    requires HistoryOk(c, h) && Safe(c, h, x, hi) && u in h.reigns && hi < u
    ensures x <= h.reigns[u].start
  {
    if x != [] {
      var t: nat, k: nat :| t <= hi && Committed(c, h, t, k) && x <= h.reigns[t].log[..k];
      LeaderCompleteness(c, h, t, k, u);
      PrefixChain(x, h.reigns[t].log[..k], h.reigns[u].start);
    }
  }

  /** The follower's commit bound is sound: a present leader has all that any node of a term up to its
      own has committed, so no follower commits an entry its leader does not have. */
  lemma FollowerCommitSound(ss: seq<State>, genesis: Bank, i: nat, l: NodeId, p: NodeId)
    requires Run(ss, genesis) && i < |ss| && l in ss[i].ns && p in ss[i].ns
    requires ss[i].ns[l].role == LEADER && ss[i].ns[p].term <= ss[i].ns[l].term
    ensures var n := ss[i].ns[p]; n.commit <= |n.log| && n.log[..n.commit] <= ss[i].ns[l].log
  {
    var s, n := ss[i], ss[i].ns[p];
    RunOk(ss, genesis, i);
    LeaderFacts(s, l, genesis);
    assert NodeOk(s.c, s.h, n, genesis);
    SafePrefix(s.c, s.h, n.log[..n.commit], n.log[..Settled(n)], n.term, n.term);
    SafeInReign(s.c, s.h, n.log[..n.commit], n.term, s.ns[l].term);
  }

  /** Why that bound is sound: a follower in the leader's term that holds no prefix of the leader's log
      parted from it at or below every prevLogIndex in flight to it and at or below nextIndex - 1. */
  lemma DivergenceBelowMessages(ss: seq<State>, genesis: Bank, i: nat, l: NodeId, p: NodeId)
    requires Run(ss, genesis) && i < |ss| && l in ss[i].ns && p in ss[i].ns && p != l
    requires ss[i].ns[l].role == LEADER && ss[i].ns[p].term == ss[i].ns[l].term && !(ss[i].ns[p].log <= ss[i].ns[l].log)
    ensures var s, n, g := ss[i], ss[i].ns[p], ss[i].ns[l];
            && Lookup(g.next, p) >= 1 && ShareAtMost(n.log, g.log, Lookup(g.next, p) - 1)
            && forall m :: m in s.net && m.AppendReq? && m.to == p && m.args.term == g.term ==>
                 ShareAtMost(n.log, g.log, m.args.prev)
  {
    var s, g := ss[i], ss[i].ns[l];
    RunOk(ss, genesis, i);
    LeaderFacts(s, l, genesis);
    assert NodeOk(s.c, s.h, s.ns[p], genesis);
    assert ProgressOk(s.h, g, s.ns[p]);
    forall m | m in s.net && m.AppendReq? && m.to == p && m.args.term == g.term
      ensures ShareAtMost(s.ns[p].log, g.log, m.args.prev)
    {
      assert MsgOk(s.c, s.ns, s.h, m);
    }
  }

  /** matchIndex is truthful: a follower in the leader's term holds the leader's log up to it. */
  lemma MatchIndexTruthful(ss: seq<State>, genesis: Bank, i: nat, l: NodeId, p: NodeId)
    requires Run(ss, genesis) && i < |ss| && l in ss[i].ns && p in ss[i].ns && p != l
    requires ss[i].ns[l].role == LEADER && ss[i].ns[p].term == ss[i].ns[l].term
    ensures var k := Lookup(ss[i].ns[l].matched, p);
            k <= |ss[i].ns[l].log| && ss[i].ns[l].log[..k] <= ss[i].ns[p].log
  {
    var s, g := ss[i], ss[i].ns[l];
    RunOk(ss, genesis, i);
    LeaderFacts(s, l, genesis);
    assert NodeOk(s.c, s.h, s.ns[p], genesis);
    assert ProgressOk(s.h, g, s.ns[p]);
    assert (g.term, p) in s.h.acks ==> s.h.acks[(g.term, p)] <= |g.log|;
    assert Kept(s.h, g.term, Lookup(g.matched, p), s.ns[p].log, s.ns[p].term);
  }

  // ---------- replicas ----------

  /** Every node's stored accounts and results are the fold of its log up to lastApplied, and two nodes
      (or one node before and after crashes) with the same lastApplied hold the same. */
  lemma ReplicaAgreement(ss: seq<State>, genesis: Bank, i: nat, j: nat, a: NodeId, b: NodeId)
    requires Run(ss, genesis) && i <= j < |ss| && a in ss[i].ns && b in ss[j].ns
    requires ss[i].ns[a].applied == ss[j].ns[b].applied
    ensures ss[i].ns[a].bank == ss[j].ns[b].bank
    ensures var n := ss[i].ns[a]; n.applied <= |n.log| && n.bank == Fold(genesis, n.log[..n.applied])
  {
    RunOk(ss, genesis, i);
    RunOk(ss, genesis, j);
    assert NodeOk(ss[i].c, ss[i].h, ss[i].ns[a], genesis);
    assert NodeOk(ss[j].c, ss[j].h, ss[j].ns[b], genesis);
    StateMachineSafety(ss, genesis, i, j, a, b, ss[i].ns[a].applied);
  }

  // ---------- single flight ----------

  /** At most one thread per peer, only while its flag is set; and in one leadership the prevLogIndex
      read first is still nextIndex - 1 when the message is built and while its reply is awaited. */
  lemma SingleFlight(ss: seq<State>, genesis: Bank, i: nat, l: NodeId, t: nat, u: nat)
    requires Run(ss, genesis) && i < |ss| && l in ss[i].ns
    requires t in ss[i].ns[l].workers && u in ss[i].ns[l].workers
    ensures var n := ss[i].ns[l]; var w := n.workers[t];
            && (n.workers[u].peer == w.peer ==> u == t)
            && w.peer in n.busy
            && (w.Primed? && n.role == LEADER && w.term == n.term ==> w.prev + 1 == Lookup(n.next, w.peer))
            && (w.Waiting? && n.role == LEADER && w.req.term == n.term ==> w.req.prev + 1 == Lookup(n.next, w.peer))
  {
    RunOk(ss, genesis, i);
    assert NodeOk(ss[i].c, ss[i].h, ss[i].ns[l], genesis);
    assert WorkerOk(ss[i].ns[l], ss[i].ns[l].workers[t]);
  }

  // ---------- what never goes back ----------

  lemma FollowerStepKeepsCommit(s: State, m: Msg, genesis: Bank)
    requires Inv(s, genesis) && Enabled(s, OnAppendReq(m))
    ensures DoAppendReq(s, m).ns[m.to].commit >= s.ns[m.to].commit
  {
    var n, a := s.ns[m.to], m.args;
    if a.term >= n.term && Accepts(n.log, a.prev, a.prevTerm) {
      var s1 := s.(ns := s.ns[m.to := Adopt(n, a.term)]);
      AdoptKeeps(s, m, genesis);
      assert NodeOk(s1.c, s1.h, s1.ns[m.to], genesis);
      assert MsgOk(s1.c, s1.ns, s1.h, m);
      TakenSafe(s1.c, s1.h, s1.ns[m.to], a, genesis);
    }
  }

  /** A step on a node's own fields never takes it back. */
  predicate Forward(n: Node, n': Node) {
    n'.term >= n.term && n'.applied >= n.applied && n'.commit >= n.commit
  }

  lemma VoteForward(c: Config, n: Node, term: nat, cand: NodeId, lastIndex: nat, lastTerm: nat, from: NodeId,
                    reply: nat, ok: bool)
    ensures Forward(n, StartElection(n))
    ensures Forward(n, HandleVote(n, term, cand, lastIndex, lastTerm).node)
    ensures Forward(n, CountVote(c, n, from, term, reply, ok))
  {
  }

  lemma ReplyForward(c: Config, n: Node, p: NodeId, a: AppendArgs, reply: nat, ok: bool)
    ensures Forward(n, HandleAppendReply(c, n, p, a, reply, ok))
  {
  }

  lemma ExecuteForward(s: State, i: NodeId, genesis: Bank)
    requires Inv(s, genesis) && i in s.ns
    ensures Forward(s.ns[i], ApplyNext(s.ns[i]))
  {
    assert NodeOk(s.c, s.h, s.ns[i], genesis);
    if s.ns[i].batch != [] {
      IndexOf(s.c, s.h, s.ns[i].log, s.ns[i].applied);
    }
  }

  lemma AppendForward(s: State, m: Msg, genesis: Bank)
    requires Inv(s, genesis) && Enabled(s, OnAppendReq(m))
    ensures Forward(s.ns[m.to], DoAppendReq(s, m).ns[m.to])
  {
    FollowerStepKeepsCommit(s, m, genesis);
  }

  /** Terms never decrease, lastApplied never decreases, and commitIndex decreases only in a crash. */
  lemma Monotone(s: State, step: Step, i: NodeId, genesis: Bank)
    requires Inv(s, genesis) && Enabled(s, step) && i in s.ns
    ensures var s' := Do(s, step);
            && i in s'.ns && s'.ns[i].term >= s.ns[i].term && s'.ns[i].applied >= s.ns[i].applied
            && (step != Crash(i) ==> s'.ns[i].commit >= s.ns[i].commit)
  {
    match step
    case OnAppendReq(m) => AppendForward(s, m, genesis);
    case Execute(k) => ExecuteForward(s, k, genesis);
    case OnAppendRep(k, tid, m) => ReplyForward(s.c, s.ns[k], m.from, m.args, m.term, m.ok);
    case OnVoteReq(m) => VoteForward(s.c, s.ns[m.to], m.term, m.candidate, m.lastIndex, m.lastTerm, 0, 0, false);
    case OnVoteRep(m) => VoteForward(s.c, s.ns[m.candidate], m.reqTerm, 0, 0, 0, m.from, m.term, m.ok);
    case _ =>
  }

  ghost predicate CrashAt(s: State, s': State, a: NodeId) {
    Enabled(s, Crash(a)) && s' == Do(s, Crash(a))
  }

  lemma RunForward(ss: seq<State>, genesis: Bank, k: nat, a: NodeId)
    requires Run(ss, genesis) && k + 1 < |ss| && a in ss[k].ns
    ensures a in ss[k + 1].ns && ss[k + 1].ns[a].term >= ss[k].ns[a].term
    ensures ss[k + 1].ns[a].applied >= ss[k].ns[a].applied
    ensures !CrashAt(ss[k], ss[k + 1], a) ==> ss[k + 1].ns[a].commit >= ss[k].ns[a].commit
  {
    RunOk(ss, genesis, k);
    RunNext(ss, genesis, k);
    var step :| Enabled(ss[k], step) && ss[k + 1] == Do(ss[k], step);
    Monotone(ss[k], step, a, genesis);
  }

  /** Over a run, terms and lastApplied never decrease, nor does commitIndex while the node does not crash. */
  lemma {:induction false} RunMonotone(ss: seq<State>, genesis: Bank, i: nat, j: nat, a: NodeId)
    requires Run(ss, genesis) && i <= j < |ss| && a in ss[i].ns
    ensures a in ss[j].ns && ss[j].ns[a].term >= ss[i].ns[a].term && ss[j].ns[a].applied >= ss[i].ns[a].applied
    ensures (forall k :: i <= k < j ==> !CrashAt(ss[k], ss[k + 1], a)) ==> ss[j].ns[a].commit >= ss[i].ns[a].commit
    decreases j
  {
    if i < j {
      RunMonotone(ss, genesis, i, j - 1, a);
      RunForward(ss, genesis, j - 1, a);
    }
  }

  // ---------- when a vote lasts ----------

  /** A candidate hears from the leader of its own term. */
  predicate Resets(s: State, step: Step, a: NodeId) {
    && a in s.ns && step.OnAppendReq? && step.m.AppendReq? && step.m.to == a
    && step.m.args.term == s.ns[a].term && s.ns[a].role == CANDIDATE
  }

  /** What a step that is (or is not) such a reset does to a vote within its term. A vote for oneself is given
      only when standing for election, that is, in a new term. */
  predicate VoteMoves(n: Node, n': Node, reset: bool) {
    && (n'.term == n.term && n.votedFor != NO_VOTE ==> (n'.votedFor == n.votedFor <==> !reset))
    && (n'.term == n.term && n.votedFor != n.id ==> n'.votedFor != n.id)
    && (reset ==> n'.term == n.term && n.votedFor == n.id)
  }

  lemma AppendMovesVote(s: State, m: Msg, genesis: Bank)
    requires Inv(s, genesis) && Enabled(s, OnAppendReq(m))
    ensures VoteMoves(s.ns[m.to], HandleAppend(s.ns[m.to], m.args).node, Resets(s, OnAppendReq(m), m.to))
  {
    assert NodeOk(s.c, s.h, s.ns[m.to], genesis);
    assert MsgOk(s.c, s.ns, s.h, m);
    assert RegalAt(s.h, s.ns[m.to], m.args.term);
  }

  lemma RequestMovesVote(s: State, m: Msg, genesis: Bank)
    requires Inv(s, genesis) && Enabled(s, OnVoteReq(m))
    ensures VoteMoves(s.ns[m.to], HandleVote(s.ns[m.to], m.term, m.candidate, m.lastIndex, m.lastTerm).node, false)
  {
    assert NodeOk(s.c, s.h, s.ns[m.to], genesis);
    assert MsgOk(s.c, s.ns, s.h, m);
  }

  lemma RepliesMoveVote(c: Config, n: Node, p: NodeId, a: AppendArgs, t: nat, reply: nat, ok: bool)
    ensures VoteMoves(n, CountVote(c, n, p, t, reply, ok), false)
    ensures VoteMoves(n, HandleAppendReply(c, n, p, a, reply, ok), false)
  {
  }

  /** Exactly a reset takes back a vote within its term. */
  lemma VoteKeptIff(s: State, step: Step, a: NodeId, genesis: Bank)
    requires Inv(s, genesis) && Enabled(s, step) && a in s.ns
    ensures a in Do(s, step).ns && s.ns[a].id == a && VoteMoves(s.ns[a], Do(s, step).ns[a], Resets(s, step, a))
  {
    assert NodeOk(s.c, s.h, s.ns[a], genesis);
    match step
    case OnAppendReq(m) => AppendMovesVote(s, m, genesis);
    case OnVoteReq(m) => RequestMovesVote(s, m, genesis);
    case OnVoteRep(m) =>
      RepliesMoveVote(s.c, s.ns[m.candidate], m.from, AppendArgs(0, 0, 0, 0, [], 0), m.reqTerm, m.term, m.ok);
    case OnAppendRep(i, tid, m) => RepliesMoveVote(s.c, s.ns[i], m.from, m.args, 0, m.term, m.ok);
    case _ =>
  }

  ghost predicate ResetAt(s: State, s': State, a: NodeId) {
    exists step {:trigger Resets(s, step, a)} :: Enabled(s, step) && s' == Do(s, step) && Resets(s, step, a)
  }

  lemma RunVote(ss: seq<State>, genesis: Bank, k: nat, a: NodeId)
    requires Run(ss, genesis) && k + 1 < |ss| && a in ss[k].ns
    ensures a in ss[k + 1].ns && ss[k].ns[a].id == a
    ensures VoteMoves(ss[k].ns[a], ss[k + 1].ns[a], ResetAt(ss[k], ss[k + 1], a))
  {
    RunOk(ss, genesis, k);
    RunNext(ss, genesis, k);
    var s, s' := ss[k], ss[k + 1];
    var step :| Enabled(s, step) && s' == Do(s, step);
    if ResetAt(s, s', a) {
      step :| Enabled(s, step) && s' == Do(s, step) && Resets(s, step, a);
    }
    VoteKeptIff(s, step, a, genesis);
  }

  /** No reset of a happens from state i to state j. */
  ghost predicate NoReset(ss: seq<State>, i: nat, j: nat, a: NodeId)
    requires j < |ss|
  {
    forall k :: i <= k < j ==> !ResetAt(ss[k], ss[k + 1], a)
  }

  /** How long a vote lasts: over any stretch of a run in one term, a node's vote is the same at both ends
      if and only if it did not, as a candidate, hear from that term's leader in between. */
  lemma {:induction false} VoteLastsIff(ss: seq<State>, genesis: Bank, i: nat, j: nat, a: NodeId)
    requires Run(ss, genesis) && i <= j < |ss| && a in ss[i].ns && a in ss[j].ns
    requires ss[j].ns[a].term == ss[i].ns[a].term && ss[i].ns[a].votedFor != NO_VOTE
    ensures ss[j].ns[a].votedFor == ss[i].ns[a].votedFor <==> NoReset(ss, i, j, a)
    ensures !NoReset(ss, i, j, a) ==> ss[i].ns[a].votedFor == a && ss[j].ns[a].votedFor != a
    decreases j
  {
    if i < j {
      RunMonotone(ss, genesis, i, j - 1, a);
      RunMonotone(ss, genesis, j - 1, j, a);
      VoteLastsIff(ss, genesis, i, j - 1, a);
      RunVote(ss, genesis, j - 1, a);
      assert NoReset(ss, i, j, a) <==> NoReset(ss, i, j - 1, a) && !ResetAt(ss[j - 1], ss[j - 1 + 1], a);
    }
  }
}
