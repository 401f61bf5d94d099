/** From every reachable state a cluster of two nodes or more can still be brought to commit any command and
    to execute it on every node. */
module Serving {
  import opened Quorum
  import opened Bank
  import opened NodeSpec
  import opened Cluster
  import opened Invariant
  import opened Steps
  import opened ReplicationSteps
  import opened Safety
  import opened CatchUp
  import opened Runs
  import opened Laws
  import opened Reachable
  import opened Electability
  import opened Progress

  // ---------- a busy flag stands for a thread ----------

  predicate Staffed(n: Node) {
    forall p :: p in n.busy ==> exists t :: t in n.workers && n.workers[t].peer == p
  }

  ghost predicate AllStaffed(s: State) {
    forall i {:trigger Staffed(s.ns[i])} :: i in s.ns ==> Staffed(s.ns[i])
  }

  lemma StaffedPut(n: Node, n': Node, t: nat, w: Worker)
    requires Staffed(n) && t in n.workers && w.peer == n.workers[t].peer
    requires n'.busy == n.busy && n'.workers == n.workers[t := w]
    ensures Staffed(n')
  {
    forall p | p in n'.busy ensures exists u :: u in n'.workers && n'.workers[u].peer == p {
      var u :| u in n.workers && n.workers[u].peer == p;
      assert u in n'.workers && n'.workers[u].peer == p;
    }
  }

  lemma StaffedSpawn(n: Node, t: nat, p: NodeId)
    requires Staffed(n) && t !in n.workers
    ensures Staffed(n.(busy := n.busy + {p}, workers := n.workers[t := Spawned(p)]))
  {
    var n' := n.(busy := n.busy + {p}, workers := n.workers[t := Spawned(p)]);
    forall q | q in n'.busy ensures exists u :: u in n'.workers && n'.workers[u].peer == q {
      if q == p {
        assert n'.workers[t].peer == q;
      } else {
        var u :| u in n.workers && n.workers[u].peer == q;
        assert n'.workers[u].peer == q;
      }
    }
  }

  lemma StaffedFinish(n: Node, t: nat)
    requires Staffed(n) && t in n.workers
    ensures Staffed(n.(busy := n.busy - {n.workers[t].peer}, workers := n.workers - {t}))
  {
    var n' := n.(busy := n.busy - {n.workers[t].peer}, workers := n.workers - {t});
    forall q | q in n'.busy ensures exists u :: u in n'.workers && n'.workers[u].peer == q {
      var u :| u in n.workers && n.workers[u].peer == q;
      assert u in n'.workers && n'.workers[u].peer == q;
    }
  }

  predicate OnThread(step: Step) {
    step.Spawn? || step.Prime? || step.Send? || step.OnAppendRep? || step.Timeout? || step.Finish? || step.Crash?
  }

  lemma ThreadStep(s: State, step: Step)
    requires Enabled(s, step) && OnThread(step) && Staffed(s.ns[step.i])
    ensures Staffed(Do(s, step).ns[step.i])
  {
    var i := step.i;
    var n, n' := s.ns[i], Do(s, step).ns[i];
    match step
    case Spawn(_, tid, peer) => StaffedSpawn(n, tid, peer);
    case Finish(_, tid) => StaffedFinish(n, tid);
    case Crash(_) =>
    case Prime(_, tid) => StaffedPut(n, n', tid, n'.workers[tid]);
    case Send(_, tid) => StaffedPut(n, n', tid, n'.workers[tid]);
    case OnAppendRep(_, tid, m) => StaffedPut(n, n', tid, n'.workers[tid]);
    case Timeout(_, tid) => StaffedPut(n, n', tid, n'.workers[tid]);
  }

  lemma VoteKeepsThreads(n: Node, m: Msg)
    requires m.VoteReq?
    ensures SameThreads(n, HandleVote(n, m.term, m.candidate, m.lastIndex, m.lastTerm).node)
  {
  }

  lemma CountKeepsThreads(c: Config, n: Node, m: Msg)
    requires m.VoteRep?
    ensures SameThreads(n, CountVote(c, n, m.from, m.reqTerm, m.term, m.ok))
  {
  }

  lemma AppendKeepsThreads(n: Node, a: AppendArgs)
    ensures HandleAppend(n, a).node.busy == n.busy && HandleAppend(n, a).node.workers == n.workers
  {
  }

  /** Every other step leaves all threads alone, and a thread's step those of other nodes. */
  lemma OtherThreads(s: State, step: Step, i: NodeId)
    requires Enabled(s, step) && i in s.ns && (OnThread(step) ==> i != step.i)
    ensures i in Do(s, step).ns
    ensures Do(s, step).ns[i].busy == s.ns[i].busy && Do(s, step).ns[i].workers == s.ns[i].workers
  {
    match step
    case OnVoteReq(m) => VoteKeepsThreads(s.ns[m.to], m);
    case OnVoteRep(m) => CountKeepsThreads(s.c, s.ns[m.candidate], m);
    case OnAppendReq(m) => AppendKeepsThreads(s.ns[m.to], m.args);
    case _ =>
  }

  lemma StepStaffed(s: State, step: Step)
    requires Enabled(s, step) && AllStaffed(s) && Do(s, step).ns.Keys == s.ns.Keys
    ensures AllStaffed(Do(s, step))
  {
    var s' := Do(s, step);
    forall i | i in s'.ns ensures Staffed(s'.ns[i]) {
      assert Staffed(s.ns[i]);
      if OnThread(step) && i == step.i {
        ThreadStep(s, step);
      } else {
        OtherThreads(s, step, i);
      }
    }
  }

  lemma RunStepStaffed(ss: seq<State>, genesis: Bank, k: nat)
    requires Run(ss, genesis) && k + 1 < |ss| && AllStaffed(ss[k]) && ss[k + 1].ns.Keys == ss[k].ns.Keys
    ensures AllStaffed(ss[k + 1])
  {
    RunNext(ss, genesis, k);
    var step :| Enabled(ss[k], step) && ss[k + 1] == Do(ss[k], step);
    StepStaffed(ss[k], step);
  }

  lemma {:induction false} RunStaffed(ss: seq<State>, genesis: Bank, k: nat)
    requires Run(ss, genesis) && k < |ss|
    ensures AllStaffed(ss[k])
  {
    RunHoused(ss, genesis, k);
    if k > 0 {
      RunStaffed(ss, genesis, k - 1);
      RunHoused(ss, genesis, k - 1);
      RunStepExtends(ss, genesis, k - 1);
      RunStepStaffed(ss, genesis, k - 1);
    }
  }

  // ---------- ending the threads of a node that does not lead ----------

  function Ended(n: Node, t: nat): Node
    requires t in n.workers
  {
    n.(busy := n.busy - {n.workers[t].peer}, workers := n.workers - {t})
  }

  /** The step that brings a thread of a node that does not lead to its end. */
  function Halt(n: Node, t: nat): Step
    requires t in n.workers && !n.workers[t].Returned?
  {
    match n.workers[t]
    case Spawned(_) => Prime(n.id, t)
    case Primed(_, _, _) => Send(n.id, t)
    case Waiting(_, _) => Timeout(n.id, t)
  }

  lemma HaltReturns(s: State, w: NodeId, t: nat)
    requires w in s.ns && s.ns[w].id == w && s.ns[w].role != LEADER
    requires t in s.ns[w].workers && !s.ns[w].workers[t].Returned?
    ensures var n, step := s.ns[w], Halt(s.ns[w], t);
            && Enabled(s, step) && Do(s, step).c == s.c
            && Do(s, step).ns == s.ns[w := n.(workers := n.workers[t := Returned(n.workers[t].peer)])]
  {
  }

  lemma FinishEnds(s: State, w: NodeId, t: nat)
    requires w in s.ns && t in s.ns[w].workers && s.ns[w].workers[t].Returned?
    ensures Enabled(s, Finish(w, t)) && Do(s, Finish(w, t)).c == s.c
    ensures Do(s, Finish(w, t)).ns == s.ns[w := Ended(s.ns[w], t)]
  {
  }

  lemma RunEnds(ss: seq<State>, genesis: Bank, w: NodeId, t: nat) returns (k: nat, r: seq<State>, s': State)
    requires Run(ss, genesis) && w in ss[|ss| - 1].ns && ss[|ss| - 1].ns[w].id == w
    requires ss[|ss| - 1].ns[w].role != LEADER && t in ss[|ss| - 1].ns[w].workers
    ensures Longer(ss, r, k, genesis) && s' == r[|r| - 1] && s'.c == ss[|ss| - 1].c
    ensures s'.ns == ss[|ss| - 1].ns[w := Ended(ss[|ss| - 1].ns[w], t)]
  {
    var s := ss[|ss| - 1];
    var n := s.ns[w];
    k, r := 1, ss;
    if !n.workers[t].Returned? {
      HaltReturns(s, w, t);
      r := Extend(r, genesis, Halt(n, t));
      k := 2;
    }
    var s1 := r[|r| - 1];
    FinishEnds(s1, w, t);
    r := Extend(r, genesis, Finish(w, t));
    s' := r[|r| - 1];
    assert n.workers[t := Returned(n.workers[t].peer)] - {t} == n.workers - {t};
    assert s'.ns[w] == Ended(n, t);
  }

  /** n without its threads. */
  function Idle(n: Node): Node { n.(busy := {}, workers := map[]) }

  lemma {:induction false} RunDrains(ss: seq<State>, genesis: Bank, w: NodeId)
      returns (k: nat, r: seq<State>, s': State)
    requires Run(ss, genesis) && w in ss[|ss| - 1].ns && ss[|ss| - 1].ns[w].id == w
    requires ss[|ss| - 1].ns[w].role != LEADER
    ensures Longer(ss, r, k, genesis) && s' == r[|r| - 1] && s'.c == ss[|ss| - 1].c
    ensures s'.ns == ss[|ss| - 1].ns[w := Idle(ss[|ss| - 1].ns[w])]
    decreases |ss[|ss| - 1].ns[w].workers.Keys|
  {
    var s := ss[|ss| - 1];
    var n := s.ns[w];
    if n.workers == map[] {
      RunStaffed(ss, genesis, |ss| - 1);
      assert Staffed(n);
      assert n.busy == {};
      k, r, s' := 0, ss, s;
    } else {
      var t :| t in n.workers;
      var s1, k1;
      k, r, s1 := RunEnds(ss, genesis, w, t);
      assert s1.ns[w].workers.Keys == n.workers.Keys - {t};
      k1, r, s' := RunDrains(r, genesis, w);
      k := k + k1;
      assert Idle(Ended(n, t)) == Idle(n);
    }
  }

  // ---------- bringing an entry to everybody ----------

  predicate Behind(n: Node, p: NodeId) { 1 <= Lookup(n.next, p) <= |n.log| }

  predicate Taught(n: Node, p: NodeId) { Lookup(n.matched, p) >= |n.log| }

  /** l, alone with its threads ended, leads with the log x, whose last entry is its own; the nodes of `todo`
      have not been brought it yet, the other peers hold it. What it holds of nodes is stated with triggers,
      Fair included, so that it is unfolded only for the node at hand. */
  ghost predicate Teaches(s: State, l: NodeId, x: Log, todo: set<NodeId>) {
    && Housed(s) && l in s.ns && s.ns[l].role == LEADER && s.ns[l].log == x
    && x != [] && x[|x| - 1].term == s.ns[l].term
    && s.ns[l].busy == {} && s.ns[l].workers == map[] && todo <= s.c.Peers(l)
    && (forall n {:trigger Fair(s.c, n)} :: n == s.ns[l] ==> Fair(s.c, n))
    && (forall p {:trigger Within(s, p, s.ns[l].term)} :: p in s.ns ==> Within(s, p, s.ns[l].term))
    && (forall p {:trigger Behind(s.ns[l], p)} :: p in todo ==> Behind(s.ns[l], p))
    && (forall p {:trigger Taught(s.ns[l], p)} :: p in s.c.Peers(l) - todo ==> Taught(s.ns[l], p))
  }

  lemma TaughtOne(s: State, s': State, l: NodeId, x: Log, todo: set<NodeId>, p: NodeId)
    requires Teaches(s, l, x, todo) && p in todo && Traded(s, s', l, p) && Lookup(s'.ns[l].matched, p) >= |x|
    requires Housed(s')
    ensures Teaches(s', l, x, todo - {p})
  {
    assert Fair(s.c, s.ns[l]);
    forall q | q in s'.ns ensures Within(s', q, s'.ns[l].term) {
      assert Within(s, q, s.ns[l].term);
    }
    forall q | q in todo - {p} ensures Behind(s'.ns[l], q) {
      assert Behind(s.ns[l], q);
    }
    forall q | q in s'.c.Peers(l) - (todo - {p}) ensures Taught(s'.ns[l], q) {
      assert q != p ==> Taught(s.ns[l], q);
    }
  }

  lemma RunTeachesOne(ss: seq<State>, genesis: Bank, l: NodeId, x: Log, todo: set<NodeId>, p: NodeId)
      returns (k: nat, r: seq<State>, s': State)
    requires Run(ss, genesis) && Teaches(ss[|ss| - 1], l, x, todo) && p in todo
    ensures Longer(ss, r, k, genesis) && s' == r[|r| - 1] && s'.c == ss[|ss| - 1].c
    ensures Teaches(s', l, x, todo - {p}) && s'.ns[l].term == ss[|ss| - 1].ns[l].term
  {
    var s := ss[|ss| - 1];
    assert Behind(s.ns[l], p) && Within(s, p, s.ns[l].term);
    var d, j;
    d, j, r, s' := ReachableCatchesUp(ss, genesis, l, p, 0);
    k := 6 * j;
    RunHoused(r, genesis, |r| - 1);
    TaughtOne(s, s', l, x, todo, p);
  }

  lemma {:induction false} RunTeaches(ss: seq<State>, genesis: Bank, l: NodeId, x: Log, todo: set<NodeId>)
      returns (k: nat, r: seq<State>, s': State)
    requires Run(ss, genesis) && Teaches(ss[|ss| - 1], l, x, todo)
    ensures Longer(ss, r, k, genesis) && s' == r[|r| - 1] && s'.c == ss[|ss| - 1].c && Teaches(s', l, x, {})
    ensures s'.ns[l].term == ss[|ss| - 1].ns[l].term
    decreases |todo|
  {
    var s := ss[|ss| - 1];
    if todo == {} {
      k, r, s' := 0, ss, s;
    } else {
      var p :| p in todo;
      var k1, k2;
      k1, r, s' := RunTeachesOne(ss, genesis, l, x, todo, p);
      k2, r, s' := RunTeaches(r, genesis, l, x, todo - {p});
      k := k1 + k2;
    }
  }

  /** Once all hold it, the last entry is committed. */
  lemma TaughtCommits(s: State, l: NodeId, x: Log)
    requires Teaches(s, l, x, {}) && |s.c.nodes| >= 2
    ensures s.ns[l].commit >= |x|
  {
    var n := s.ns[l];
    assert Fair(s.c, n);
    EnoughNodes(s.c);
    forall p | p in s.c.Peers(l) ensures Lookup(n.matched, p) >= |x| {
      assert Taught(n, p);
    }
    assert Backers(s.c, n, |x|) == s.c.Peers(l);
    assert |s.c.Peers(l)| == |s.c.nodes| - 1;
  }

  // ---------- executing it everywhere ----------

  /** p has executed the log x and nothing else. */
  ghost predicate HasExecuted(s: State, p: NodeId, x: Log, genesis: Bank) {
    p in s.ns && s.ns[p].applied == |x| && s.ns[p].bank == Fold(genesis, x)
  }

  /** l leads with the log x, all of it committed; the other peers than those of `todo` have executed it. */
  ghost predicate Serves(s: State, l: NodeId, x: Log, todo: set<NodeId>, genesis: Bank) {
    && Housed(s) && l in s.ns && s.ns[l].role == LEADER && s.ns[l].log == x && s.ns[l].commit == |x|
    && s.ns[l].busy == {} && s.ns[l].workers == map[] && todo <= s.c.Peers(l)
    && (forall p {:trigger Within(s, p, s.ns[l].term)} :: p in s.ns ==> Within(s, p, s.ns[l].term))
    && (forall p {:trigger HasExecuted(s, p, x, genesis)} :: p in s.c.Peers(l) - todo ==> HasExecuted(s, p, x, genesis))
  }

  lemma ServedOne(s: State, s': State, l: NodeId, x: Log, todo: set<NodeId>, p: NodeId, genesis: Bank)
    requires Serves(s, l, x, todo, genesis) && p in todo && Traded(s, s', l, p) && Housed(s')
    requires HasExecuted(s', p, x, genesis) && s'.ns[l].commit <= |x|
    ensures Serves(s', l, x, todo - {p}, genesis)
  {
    forall q | q in s'.ns ensures Within(s', q, s'.ns[l].term) {
      assert Within(s, q, s.ns[l].term);
    }
    forall q | q in s'.c.Peers(l) - (todo - {p}) ensures HasExecuted(s', q, x, genesis) {
      assert q != p ==> HasExecuted(s, q, x, genesis);
    }
  }

  lemma RunServesOne(ss: seq<State>, genesis: Bank, l: NodeId, x: Log, todo: set<NodeId>, p: NodeId)
      returns (k: nat, r: seq<State>, s': State)
    requires Run(ss, genesis) && Serves(ss[|ss| - 1], l, x, todo, genesis) && p in todo
    ensures Longer(ss, r, k, genesis) && s' == r[|r| - 1] && s'.c == ss[|ss| - 1].c
    ensures Serves(s', l, x, todo - {p}, genesis) && s'.ns[l].term == ss[|ss| - 1].ns[l].term
  {
    var s := ss[|ss| - 1];
    assert Within(s, p, s.ns[l].term);
    k, r, s' := ReachableLevel(ss, genesis, l, p, 0);
    RunHoused(r, genesis, |r| - 1);
    CommitWithin(r, genesis, l);
    assert x[..|x|] == x;
    ServedOne(s, s', l, x, todo, p, genesis);
  }

  lemma {:induction false} RunServes(ss: seq<State>, genesis: Bank, l: NodeId, x: Log, todo: set<NodeId>)
      returns (k: nat, r: seq<State>, s': State)
    requires Run(ss, genesis) && Serves(ss[|ss| - 1], l, x, todo, genesis)
    ensures Longer(ss, r, k, genesis) && s' == r[|r| - 1] && s'.c == ss[|ss| - 1].c && Serves(s', l, x, {}, genesis)
    ensures s'.ns[l].term == ss[|ss| - 1].ns[l].term
    decreases |todo|
  {
    var s := ss[|ss| - 1];
    if todo == {} {
      k, r, s' := 0, ss, s;
    } else {
      var p :| p in todo;
      var k1, k2;
      k1, r, s' := RunServesOne(ss, genesis, l, x, todo, p);
      k2, r, s' := RunServes(r, genesis, l, x, todo - {p});
      k := k1 + k2;
    }
  }

  // ---------- any command at all ----------

  /** A new leader that takes a command, its threads ended, teaches. */
  lemma CommandTeaches(s: State, l: NodeId, t: nat, x: Log, cmd: Command) returns (s': State)
    requires NewLeader(s, l, t, x) && Housed(s) && |s.c.nodes| >= 2 && s.ns[l].busy == {} && s.ns[l].workers == map[]
    ensures Enabled(s, Client(l, cmd)) && s' == Do(s, Client(l, cmd)) && s'.c == s.c
    ensures Teaches(s', l, x + [Entry(t, |x| + 1, cmd)], s'.c.Peers(l)) && s'.ns[l].term == t
  {
    s' := Do(s, Client(l, cmd));
    var n, y := s'.ns[l], x + [Entry(t, |x| + 1, cmd)];
    EnoughNodes(s.c);
    forall p | p in s'.ns ensures Within(s', p, t) {
      assert Within(s, p, t);
    }
    forall p | p in s'.c.Peers(l) ensures Behind(n, p) && Lookup(n.matched, p) < |y| {
      assert NewIn(s.ns[l], p);
    }
    assert Backers(s'.c, n, |y|) == {};
  }

  /** A node with a greatest log can be elected with no threads left. */
  lemma RunPrepares(ss: seq<State>, genesis: Bank) returns (w: NodeId, t: nat, k: nat, r: seq<State>, s': State)
    requires Run(ss, genesis) && |ss[|ss| - 1].c.nodes| >= 2
    ensures Greatest(ss[|ss| - 1], w) && Longer(ss, r, k, genesis) && s' == r[|r| - 1] && s'.c == ss[|ss| - 1].c
    ensures TermsBelow(ss[|ss| - 1].ns, ss[|ss| - 1].ns.Keys, t) && NewLeader(s', w, t, ss[|ss| - 1].ns[w].log)
    ensures Housed(s') && s'.ns[w].busy == {} && s'.ns[w].workers == map[]
  {
    var s := ss[|ss| - 1];
    RunHoused(ss, genesis, |ss| - 1);
    w := GreatestAmong(s.ns, s.ns.Keys);
    var k1, s1, k2;
    k1, r, s1 := RunIdles(ss, genesis, w);
    StillGreatest(s, s1, w);
    t, k2, r, s' := RunElects(r, genesis, w);
    RunHoused(r, genesis, |r| - 1);
    k := k1 + k2;
  }

  /** Standing for election, a node can end all its threads. */
  lemma RunIdles(ss: seq<State>, genesis: Bank, w: NodeId) returns (k: nat, r: seq<State>, s': State)
    requires Run(ss, genesis) && w in ss[|ss| - 1].ns && ss[|ss| - 1].ns[w].id == w
    ensures Longer(ss, r, k, genesis) && s' == r[|r| - 1] && s'.c == ss[|ss| - 1].c
    ensures s'.ns == ss[|ss| - 1].ns[w := Idle(StartElection(ss[|ss| - 1].ns[w]))]
  {
    r := Extend(ss, genesis, Election(w));
    k, r, s' := RunDrains(r, genesis, w);
    k := 1 + k;
  }

  lemma StillGreatest(s: State, s1: State, w: NodeId)
    requires Greatest(s, w) && s1.ns == s.ns[w := Idle(StartElection(s.ns[w]))]
    ensures Greatest(s1, w)
    ensures forall t :: TermsBelow(s1.ns, s1.ns.Keys, t) ==> TermsBelow(s.ns, s.ns.Keys, t)
  {
    forall t | TermsBelow(s1.ns, s1.ns.Keys, t) ensures TermsBelow(s.ns, s.ns.Keys, t) {
      forall q | q in s.ns ensures s.ns[q].term < t {
        assert s1.ns[q].term < t;
      }
    }
  }

  lemma TaughtServes(ss: seq<State>, genesis: Bank, l: NodeId, x: Log)
    requires Run(ss, genesis) && Teaches(ss[|ss| - 1], l, x, {}) && |ss[|ss| - 1].c.nodes| >= 2
    ensures Serves(ss[|ss| - 1], l, x, ss[|ss| - 1].c.Peers(l), genesis)
  {
    CommitWithin(ss, genesis, l);
    TaughtCommits(ss[|ss| - 1], l, x);
  }

  /** The leader executes it last. */
  lemma RunServesAll(ss: seq<State>, genesis: Bank, l: NodeId, x: Log) returns (k: nat, r: seq<State>, s': State)
    requires Run(ss, genesis) && Serves(ss[|ss| - 1], l, x, {}, genesis)
    ensures Longer(ss, r, k, genesis) && s' == r[|r| - 1] && s'.c == ss[|ss| - 1].c && s'.ns.Keys == s'.c.nodes
    ensures forall p {:trigger HasExecuted(s', p, x, genesis)} :: p in s'.ns ==> HasExecuted(s', p, x, genesis)
    ensures l in s'.ns && s'.ns[l].role == LEADER && s'.ns[l].log == x && s'.ns[l].commit == |x|
    ensures s'.ns[l].term == ss[|ss| - 1].ns[l].term
  {
    var s := ss[|ss| - 1];
    var j := Sub(s.ns[l].commit, s.ns[l].applied);
    AppliedWithin(ss, genesis, l);
    r, s' := RunExecutes(ss, genesis, l, j);
    k := 2 * j;
    AppliedWithin(r, genesis, l);
    assert x[..|x|] == x;
    forall p | p in s'.ns ensures HasExecuted(s', p, x, genesis) {
      if p != l {
        assert p in s.c.Peers(l) - {} && HasExecuted(s, p, x, genesis);
      }
    }
  }

  lemma AppliedWithin(ss: seq<State>, genesis: Bank, l: NodeId)
    requires Run(ss, genesis) && l in ss[|ss| - 1].ns
    ensures var n := ss[|ss| - 1].ns[l]; n.applied <= |n.log| && n.bank == Fold(genesis, n.log[..n.applied])
  {
    ReplicaAgreement(ss, genesis, |ss| - 1, |ss| - 1, l, l);
  }

  /** A node with a greatest log can be elected and bring a command to every other node. */
  lemma RunTeachesCommand(ss: seq<State>, genesis: Bank, cmd: Command)
      returns (w: NodeId, t: nat, y: Log, k: nat, r: seq<State>, s': State)
    requires Run(ss, genesis) && |ss[|ss| - 1].c.nodes| >= 2
    ensures Greatest(ss[|ss| - 1], w) && TermsBelow(ss[|ss| - 1].ns, ss[|ss| - 1].ns.Keys, t)
    ensures y == ss[|ss| - 1].ns[w].log + [Entry(t, |ss[|ss| - 1].ns[w].log| + 1, cmd)]
    ensures Longer(ss, r, k, genesis) && s' == r[|r| - 1] && s'.c == ss[|ss| - 1].c
    ensures Teaches(s', w, y, {}) && s'.ns[w].term == t
  {
    var s1, k1;
    w, t, k1, r, s1 := RunPrepares(ss, genesis);
    var x := ss[|ss| - 1].ns[w].log;
    y := x + [Entry(t, |x| + 1, cmd)];
    s1 := CommandTeaches(s1, w, t, x, cmd);
    r := Extend(r, genesis, Client(w, cmd));
    k, r, s' := RunTeaches(r, genesis, w, y, s1.c.Peers(w));
    k := k1 + 1 + k;
  }

  /** The log y holds what a had committed or applied. */
  predicate KeptIn(s: State, a: NodeId, y: Log) {
    a in s.ns && Settled(s.ns[a]) <= |s.ns[a].log| && s.ns[a].log[..Settled(s.ns[a])] <= y
  }

  lemma NothingLost(ss: seq<State>, r: seq<State>, k: nat, genesis: Bank, w: NodeId, t: nat, y: Log)
    requires |ss| > 0 && Longer(ss, r, k, genesis) && TermsBelow(ss[|ss| - 1].ns, ss[|ss| - 1].ns.Keys, t)
    requires var s' := r[|r| - 1]; w in s'.ns && s'.ns[w].role == LEADER && s'.ns[w].term == t && s'.ns[w].log == y
    ensures forall a {:trigger KeptIn(ss[|ss| - 1], a, y)} :: a in ss[|ss| - 1].ns ==> KeptIn(ss[|ss| - 1], a, y)
  {
    var s := ss[|ss| - 1];
    assert r[|ss| - 1] == s;
    forall a | a in s.ns ensures KeptIn(s, a, y) {
      LeadersHoldCommitted(r, genesis, |ss| - 1, |r| - 1, a, w);
    }
  }

  /** w leads term t with the log y, all of it committed, and every node has executed it. */
  ghost predicate AllServed(s: State, w: NodeId, t: nat, y: Log, genesis: Bank) {
    && s.ns.Keys == s.c.nodes && w in s.ns && s.ns[w].role == LEADER && s.ns[w].term == t
    && s.ns[w].log == y && s.ns[w].commit == |y|
    && forall p {:trigger HasExecuted(s, p, y, genesis)} :: p in s.ns ==> HasExecuted(s, p, y, genesis)
  }

  /** Every run of a cluster of two nodes or more can be continued until a given command, appended to a
      greatest log there is, is committed by a leader of a new term and every node has executed exactly
      that log: all hold what it folds to, and nothing that any node had committed or applied is lost. */
  lemma EveryCommandServed(ss: seq<State>, genesis: Bank, cmd: Command)
      returns (w: NodeId, t: nat, y: Log, k: nat, r: seq<State>, s': State)
    requires Run(ss, genesis) && |ss[|ss| - 1].c.nodes| >= 2
    ensures Greatest(ss[|ss| - 1], w) && TermsBelow(ss[|ss| - 1].ns, ss[|ss| - 1].ns.Keys, t)
    ensures y == ss[|ss| - 1].ns[w].log + [Entry(t, |ss[|ss| - 1].ns[w].log| + 1, cmd)]
    ensures Longer(ss, r, k, genesis) && s' == r[|r| - 1] && AllServed(s', w, t, y, genesis)
    ensures forall a {:trigger KeptIn(ss[|ss| - 1], a, y)} :: a in ss[|ss| - 1].ns ==> KeptIn(ss[|ss| - 1], a, y)
  {
    var s1, k1, k2, k3;
    w, t, y, k1, r, s1 := RunTeachesCommand(ss, genesis, cmd);
    TaughtServes(r, genesis, w, y);
    k2, r, s1 := RunServes(r, genesis, w, y, s1.c.Peers(w));
    k3, r, s' := RunServesAll(r, genesis, w, y);
    k := k1 + k2 + k3;
    NothingLost(ss, r, k, genesis, w, t, y);
  }
}
