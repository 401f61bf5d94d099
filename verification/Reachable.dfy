/** What the pairwise and single-node results mean for reachable states of the cluster. */
module Reachable {
  import opened Quorum
  import opened Bank
  import opened NodeSpec
  import opened Cluster
  import opened Invariant
  import opened HistoryFacts
  import opened Steps
  import opened VoteSteps
  import opened ReplicationSteps
  import opened Safety
  import opened CatchUp
  import opened Runs
  import opened Laws
  import Conservation

  lemma RootedMatched(h: History, x: Log, y: Log)
    requires Rooted(h, x) && Rooted(h, y)
    ensures Matched(x, y)
  {
    forall k | 0 <= k < |x| && k < |y| && x[k].term == y[k].term ensures x[..k + 1] == y[..k + 1] {
      Matching(h, x, y, k);
    }
  }

  /** Any present leader and any node not ahead of it in term are such a pair. */
  lemma ReachablePair(ss: seq<State>, genesis: Bank, i: nat, l: NodeId, p: NodeId)
    requires Run(ss, genesis) && i < |ss| && l in ss[i].ns && p in ss[i].ns && p != l
    requires ss[i].ns[l].role == LEADER && ss[i].ns[p].term <= ss[i].ns[l].term
    ensures Pair(ss[i].ns[l], ss[i].ns[p])
  {
    var s, n, f := ss[i], ss[i].ns[l], ss[i].ns[p];
    RunOk(ss, genesis, i);
    LeaderFacts(s, l, genesis);
    assert NodeOk(s.c, s.h, n, genesis);
    assert NodeOk(s.c, s.h, f, genesis);
    assert ProgressOk(s.h, n, f);
    PairOk(s.c, s.h, n, f, genesis);
  }

  lemma PairOk(c: Config, h: History, n: Node, f: Node, genesis: Bank)
    requires Reigns(c, h, n, genesis) && NodeOk(c, h, f, genesis) && ProgressOk(h, n, f)
    requires f.id != n.id && f.term <= n.term
    ensures Pair(n, f)
  {
    RootedMatched(h, n.log, f.log);
    forall k | 0 <= k < |n.log| ensures n.log[k].index == k + 1 {
      IndexOf(c, h, n.log, k);
    }
    TruthfulHolds(h, n, f);
  }

  lemma TruthfulHolds(h: History, n: Node, f: Node)
    requires AcksOk(h) && AckOk(h, f) && n.term in h.reigns && n.log == h.reigns[n.term].log
    requires Lookup(n.matched, f.id) <= Ack(h, n.term, f.id) && f.term <= n.term
    ensures Holds(n.log, f.log, Lookup(n.matched, f.id))
  {
    var k := Lookup(n.matched, f.id);
    assert (n.term, f.id) in h.acks ==> n.term <= f.term && h.acks[(n.term, f.id)] <= |n.log|;
    if k > 0 {
      assert Kept(h, n.term, k, f.log, f.term);
    }
  }

  /** The longest shared prefix not above top. */
  lemma FindParting(x: Log, y: Log, top: nat) returns (d: nat)
    requires top <= |x|
    ensures Parts(x, y, d, top)
  {
    d := top;
    while !Holds(x, y, d)
      invariant d <= top && forall k {:trigger Holds(x, y, k)} :: d < k <= top ==> !Holds(x, y, k)
      decreases d
    {
      assert Holds(x, y, 0);
      d := d - 1;
    }
  }

  // ---------- catching up as a run ----------

  function WithThreads(n: Node, busy: set<NodeId>, workers: map<nat, Worker>): Node {
    n.(busy := busy, workers := workers)
  }

  lemma {:induction false} ScanIgnoresThreads(c: Config, n: Node, busy: set<NodeId>, workers: map<nat, Worker>,
                                             top: nat)
    ensures CommitScan(c, WithThreads(n, busy, workers), top) == CommitScan(c, n, top)
  {
    if top > n.commit {
      assert Holders(c, WithThreads(n, busy, workers), top) == Holders(c, n, top);
      ScanIgnoresThreads(c, n, busy, workers, top - 1);
    }
  }

  lemma ReplyIgnoresThreads(c: Config, n: Node, busy: set<NodeId>, workers: map<nat, Worker>, p: NodeId,
                            a: AppendArgs, reply: nat, ok: bool)
    ensures HandleAppendReply(c, WithThreads(n, busy, workers), p, a, reply, ok) ==
            WithThreads(HandleAppendReply(c, n, p, a, reply, ok), busy, workers)
  {
    if a.entries != [] {
      var reached := Max(Lookup(n.matched, p), a.entries[|a.entries| - 1].index);
      var m := n.(matched := n.matched[p := reached], next := n.next[p := reached + 1]);
      ScanIgnoresThreads(c, m, busy, workers, |m.log|);
    }
  }

  /** Node l, leading, has no thread for p and tid is unused. */
  predicate Ready(s: State, l: NodeId, p: NodeId, tid: nat) {
    && l in s.ns && p in s.ns && l in s.c.nodes && p in s.c.Peers(l) && s.ns[l].id == l && s.ns[p].id == p
    && p !in s.ns[l].busy && tid !in s.ns[l].workers && Pair(s.ns[l], s.ns[p])
  }

  function Message(s: State, l: NodeId, p: NodeId): AppendArgs
    requires l in s.ns
  {
    BuildAppend(s.ns[l], p, Sub1(Lookup(s.ns[l].next, p)))
  }

  function Request(s: State, l: NodeId, p: NodeId): Step
    requires l in s.ns
  {
    OnAppendReq(AppendReq(p, Message(s, l, p)))
  }

  function Reply(s: State, l: NodeId, p: NodeId, tid: nat): Step
    requires l in s.ns && p in s.ns
  {
    var v := HandleAppend(s.ns[p], Message(s, l, p));
    OnAppendRep(l, tid, AppendRep(p, Message(s, l, p), v.term, v.ok))
  }

  /** The leader l waits with the message it built in state s. */
  predicate Waits(s: State, s1: State, l: NodeId, p: NodeId, tid: nat)
    requires l in s.ns
  {
    var n := s.ns[l];
    s1.c == s.c && s1.ns == s.ns[l := WithThreads(n, n.busy + {p}, n.workers[tid := Waiting(p, Message(s, l, p))])]
  }

  lemma Asks(s: State, l: NodeId, p: NodeId, tid: nat) returns (s': State)
    requires Ready(s, l, p, tid)
    ensures CanTake(s, Spawn(l, tid, p), Prime(l, tid), Send(l, tid))
    ensures s' == Take(s, Spawn(l, tid, p), Prime(l, tid), Send(l, tid))
    ensures Waits(s, s', l, p, tid) && AppendReq(p, Message(s, l, p)) in s'.net
  {
    var n := s.ns[l];
    var s1 := Do(s, Spawn(l, tid, p));
    assert s1.ns == s.ns[l := WithThreads(n, n.busy + {p}, n.workers[tid := Spawned(p)])];
    var prev := Sub1(Lookup(n.next, p));
    var s2 := Do(s1, Prime(l, tid));
    MapPutTwice(n.workers, tid, Spawned(p), Primed(p, n.term, prev));
    MapPutTwice(s.ns, l, s1.ns[l], s2.ns[l]);
    assert s2.ns == s.ns[l := WithThreads(n, n.busy + {p}, n.workers[tid := Primed(p, n.term, prev)])];
    s' := Do(s2, Send(l, tid));
    MapPutTwice(n.workers, tid, Primed(p, n.term, prev), Waiting(p, Message(s, l, p)));
    MapPutTwice(s.ns, l, s2.ns[l], s'.ns[l]);
  }

  lemma Delivers(s: State, s1: State, l: NodeId, p: NodeId, tid: nat) returns (s2: State)
    requires Ready(s, l, p, tid) && Waits(s, s1, l, p, tid) && AppendReq(p, Message(s, l, p)) in s1.net
    ensures var a := Message(s, l, p); var v := HandleAppend(s.ns[p], a);
            && Enabled(s1, Request(s, l, p)) && s2 == Do(s1, Request(s, l, p))
            && s2.c == s.c && s2.ns == s1.ns[p := v.node] && AppendRep(p, a, v.term, v.ok) in s2.net
  {
    s2 := Do(s1, Request(s, l, p));
  }

  /** The leader after its reply, its threads as before. */
  lemma Closes(s: State, s2: State, l: NodeId, p: NodeId, tid: nat) returns (s4: State)
    requires Ready(s, l, p, tid)
    requires var n := s.ns[l]; var a := Message(s, l, p); var v := HandleAppend(s.ns[p], a);
             && s2.c == s.c && l in s2.ns && AppendRep(p, a, v.term, v.ok) in s2.net
             && s2.ns[l] == WithThreads(n, n.busy + {p}, n.workers[tid := Waiting(p, a)])
    ensures Enabled(s2, Reply(s, l, p, tid)) && Enabled(Do(s2, Reply(s, l, p, tid)), Finish(l, tid))
    ensures s4 == Do(Do(s2, Reply(s, l, p, tid)), Finish(l, tid))
    ensures s4.c == s.c && s4.ns == s2.ns[l := Exchange(s.c, s.ns[l], s.ns[p]).0]
  {
    var n, a := s.ns[l], Message(s, l, p);
    var v := HandleAppend(s.ns[p], a);
    var busy, workers := n.busy + {p}, n.workers[tid := Waiting(p, a)];
    var n' := HandleAppendReply(s.c, n, p, a, v.term, v.ok);
    ReplyIgnoresThreads(s.c, n, busy, workers, p, a, v.term, v.ok);
    var s3 := Do(s2, Reply(s, l, p, tid));
    assert s3.ns[l] == WithThreads(n', busy, workers[tid := Returned(p)]);
    s4 := Do(s3, Finish(l, tid));
    assert n.busy + {p} - {p} == n.busy && workers[tid := Returned(p)] - {tid} == n.workers;
    assert n'.busy == n.busy && n'.workers == n.workers;
    assert s4.ns[l] == n';
  }

  lemma Answers(s: State, s1: State, l: NodeId, p: NodeId, tid: nat) returns (s': State)
    requires Ready(s, l, p, tid) && Waits(s, s1, l, p, tid) && AppendReq(p, Message(s, l, p)) in s1.net
    ensures CanTake(s1, Request(s, l, p), Reply(s, l, p, tid), Finish(l, tid))
    ensures s' == Take(s1, Request(s, l, p), Reply(s, l, p, tid), Finish(l, tid))
    ensures var e := Exchange(s.c, s.ns[l], s.ns[p]);
            s'.c == s.c && s'.ns == s.ns[l := e.0][p := e.1] && s'.ns[l] == e.0 && s'.ns[p] == e.1
  {
    var s2 := Delivers(s, s1, l, p, tid);
    s' := Closes(s, s2, l, p, tid);
  }

  /** What one exchange does for a pair: a refusal, or progress by up to a hundred entries. */
  predicate Progressed(n: Node, f: Node, n': Node, f': Node) {
    && Pair(n', f') && n'.id == n.id && f'.id == f.id && n'.log == n.log
    && n'.busy == n.busy && n'.workers == n.workers
    && (if Holds(n.log, f.log, Tried(n, f)) then
          Tried(n', f') >= Min(|n.log|, Tried(n, f) + BATCH) && Holds(n.log, f'.log, Tried(n', f'))
        else
          f'.log == f.log && Tried(n', f') == Tried(n, f) - 1)
  }

  lemma ExchangeKeeps(c: Config, n: Node, f: Node)
    ensures var (n', f') := Exchange(c, n, f);
            n'.id == n.id && f'.id == f.id && n'.busy == n.busy && n'.workers == n.workers
  {
  }

  lemma ExchangedPair(c: Config, n: Node, f: Node)
    requires Pair(n, f)
    ensures Progressed(n, f, Exchange(c, n, f).0, Exchange(c, n, f).1)
  {
    ExchangeKeeps(c, n, f);
    if Holds(n.log, f.log, Tried(n, f)) {
      var n', f' := Advances(c, n, f);
    } else {
      var n', f' := Refuses(c, n, f);
    }
  }

  /** The last index is committed as soon as it is backed. */
  predicate Fair(c: Config, n: Node) {
    Backed(c, n, |n.log|) ==> n.commit >= |n.log|
  }

  /** What exchanges with p leave of a leader. */
  ghost predicate Bargained(c: Config, n: Node, n': Node, p: NodeId) {
    && n' == n.(commit := n'.commit, matched := n'.matched, next := n'.next) && n'.commit >= n.commit
    && (forall q :: q != p ==> Lookup(n'.matched, q) == Lookup(n.matched, q) && Lookup(n'.next, q) == Lookup(n.next, q))
    && Lookup(n'.matched, p) >= Lookup(n.matched, p)
    && (Fair(c, n) ==> Fair(c, n'))
  }

  lemma HeededBargains(c: Config, n: Node, n': Node, p: NodeId, a: AppendArgs, ok: bool)
    requires Heeded(c, n, n', p, a, ok) && Lookup(n.next, p) >= 1
    ensures Bargained(c, n, n', p)
    ensures ok && a.entries != [] ==> Lookup(n'.next, p) == Lookup(n'.matched, p) + 1
  {
    assert n'.matched == n.matched ==> Backers(c, n', |n.log|) == Backers(c, n, |n.log|);
  }

  /** An exchange bargains, and one that brings entries makes matchIndex the index before nextIndex. */
  lemma ExchangeBargains(c: Config, n: Node, f: Node)
    requires Pair(n, f) && n.id in c.nodes
    ensures var (n', f') := Exchange(c, n, f);
            && Bargained(c, n, n', f.id)
            && (Holds(n.log, f.log, Tried(n, f)) && Tried(n, f) < |n.log| ==> Lookup(n'.matched, f.id) == Tried(n', f'))
  {
    var a := BuildAppend(n, f.id, Tried(n, f));
    var v := HandleAppend(f, a);
    if a.entries != [] {
      assert a.entries[|a.entries| - 1] == n.log[a.prev + |a.entries| - 1];
    }
    AfterHeeded(c, n, f.id, a, v.ok);
    HeededBargains(c, n, Exchange(c, n, f).0, f.id, a, v.ok);
    if Holds(n.log, f.log, Tried(n, f)) {
      AcceptsShared(n.log, f.log, Tried(n, f));
    }
  }

  /** l's exchanges with p move those two nodes only, and p to l's term at most. */
  ghost predicate Traded(s: State, s': State, l: NodeId, p: NodeId) {
    && l in s.ns && p in s.ns && s'.c == s.c && s'.ns.Keys == s.ns.Keys
    && (forall q :: q in s.ns && q != l && q != p ==> s'.ns[q] == s.ns[q])
    && Bargained(s.c, s.ns[l], s'.ns[l], p) && s'.ns[p].term <= s.ns[l].term
  }

  lemma TradedTwice(s: State, s1: State, s2: State, l: NodeId, p: NodeId)
    requires Traded(s, s1, l, p) && Traded(s1, s2, l, p)
    ensures Traded(s, s2, l, p)
  {
  }

  lemma RunExchange(ss: seq<State>, genesis: Bank, l: NodeId, p: NodeId, tid: nat) returns (r: seq<State>, s': State)
    requires Run(ss, genesis) && Ready(ss[|ss| - 1], l, p, tid)
    ensures Longer(ss, r, 6, genesis) && s' == r[|r| - 1] && Ready(s', l, p, tid)
    ensures var s := ss[|ss| - 1];
            var n, f := s.ns[l], s.ns[p];
            && Progressed(n, f, s'.ns[l], s'.ns[p]) && Traded(s, s', l, p)
            && (Holds(n.log, f.log, Tried(n, f)) && Tried(n, f) < |n.log| ==>
                  Lookup(s'.ns[l].matched, p) == Tried(s'.ns[l], s'.ns[p]))
  {
    var s := ss[|ss| - 1];
    ExchangeBargains(s.c, s.ns[l], s.ns[p]);
    var s1 := Asks(s, l, p, tid);
    r := Extend3(ss, genesis, Spawn(l, tid, p), Prime(l, tid), Send(l, tid));
    s' := Answers(s, s1, l, p, tid);
    ExchangedPair(s.c, s.ns[l], s.ns[p]);
    r := Extend3(r, genesis, Request(s, l, p), Reply(s, l, p, tid), Finish(l, tid));
  }

  /** Down to the shared prefix d every exchange is a refusal. */
  lemma {:induction false} RunRefuses(ss: seq<State>, genesis: Bank, l: NodeId, p: NodeId, tid: nat, d: nat, j: nat)
      returns (r: seq<State>, s': State)
    requires Run(ss, genesis) && Ready(ss[|ss| - 1], l, p, tid)
    requires var n, f := ss[|ss| - 1].ns[l], ss[|ss| - 1].ns[p];
             Parts(n.log, f.log, d, Tried(n, f)) && j == Tried(n, f) - d
    ensures Longer(ss, r, 6 * j, genesis) && s' == r[|r| - 1] && Ready(s', l, p, tid)
    ensures var n, f := ss[|ss| - 1].ns[l], ss[|ss| - 1].ns[p];
            s'.ns[l].log == n.log && s'.ns[p].log == f.log && Tried(s'.ns[l], s'.ns[p]) == d
    ensures Traded(ss[|ss| - 1], s', l, p)
    decreases j
  {
    if j == 0 {
      r, s' := ss, ss[|ss| - 1];
    } else {
      var n, f := ss[|ss| - 1].ns[l], ss[|ss| - 1].ns[p];
      assert !Holds(n.log, f.log, Tried(n, f));
      var s1;
      r, s1 := RunExchange(ss, genesis, l, p, tid);
      r, s' := RunRefuses(r, genesis, l, p, tid, d, j - 1);
      TradedTwice(ss[|ss| - 1], s1, s', l, p);
    }
  }

  /** From the shared prefix on every exchange brings up to a hundred entries. */
  lemma {:induction false} RunAdvances(ss: seq<State>, genesis: Bank, l: NodeId, p: NodeId, tid: nat, k: nat)
      returns (r: seq<State>, s': State)
    requires Run(ss, genesis) && Ready(ss[|ss| - 1], l, p, tid)
    requires var n, f := ss[|ss| - 1].ns[l], ss[|ss| - 1].ns[p];
             Holds(n.log, f.log, Tried(n, f)) && k >= Batches(Tried(n, f), |n.log|)
    ensures Longer(ss, r, 6 * k, genesis) && s' == r[|r| - 1] && Ready(s', l, p, tid)
    ensures CaughtUp(ss[|ss| - 1].ns[l].log, (s'.ns[l], s'.ns[p])) && Traded(ss[|ss| - 1], s', l, p)
    ensures var n := ss[|ss| - 1].ns[l];
            Tried(n, ss[|ss| - 1].ns[p]) < |n.log| ==> Lookup(s'.ns[l].matched, p) >= |n.log|
    decreases k
  {
    var n, f := ss[|ss| - 1].ns[l], ss[|ss| - 1].ns[p];
    if k == 0 {
      r, s' := ss, ss[|ss| - 1];
      NoneLeft(n, f);
    } else {
      var s1;
      r, s1 := RunExchange(ss, genesis, l, p, tid);
      BatchStep(Tried(n, f), Tried(s1.ns[l], s1.ns[p]), |n.log|, k);
      r, s' := RunAdvances(r, genesis, l, p, tid, k - 1);
      TradedTwice(ss[|ss| - 1], s1, s', l, p);
    }
  }

  /** Every run can be continued, by the steps of l's thread for p and the deliveries of its messages alone,
      until p holds the whole log of l: for any present leader l and any node p not ahead of it in term
      that l has no thread for, at most nextIndex - 1 refusals and then one exchange per hundred entries
      are enough, with six steps each. */
  lemma ReachableCatchesUp(ss: seq<State>, genesis: Bank, l: NodeId, p: NodeId, tid: nat)
      returns (d: nat, k: nat, r: seq<State>, s': State)
    requires Run(ss, genesis) && l in ss[|ss| - 1].ns && p in ss[|ss| - 1].ns && p != l
    requires ss[|ss| - 1].ns[l].role == LEADER && ss[|ss| - 1].ns[p].term <= ss[|ss| - 1].ns[l].term
    requires p !in ss[|ss| - 1].ns[l].busy && tid !in ss[|ss| - 1].ns[l].workers
    ensures var n, f := ss[|ss| - 1].ns[l], ss[|ss| - 1].ns[p];
            && d <= Tried(n, f) <= |n.log| && Parts(n.log, f.log, d, Tried(n, f))
            && k == Tried(n, f) - d + Batches(d, |n.log|)
            && Longer(ss, r, 6 * k, genesis) && s' == r[|r| - 1]
            && Ready(s', l, p, tid) && CaughtUp(n.log, (s'.ns[l], s'.ns[p])) && Traded(ss[|ss| - 1], s', l, p)
            && (Tried(n, f) < |n.log| ==> Lookup(s'.ns[l].matched, p) >= |n.log|)
  {
    var s := ss[|ss| - 1];
    var n, f := s.ns[l], s.ns[p];
    ReachablePair(ss, genesis, |ss| - 1, l, p);
    RunHoused(ss, genesis, |ss| - 1);
    d := FindParting(n.log, f.log, Tried(n, f));
    k := Tried(n, f) - d + Batches(d, |n.log|);
    var s1;
    r, s1 := RunRefuses(ss, genesis, l, p, tid, d, Tried(n, f) - d);
    r, s' := RunAdvances(r, genesis, l, p, tid, Batches(d, |n.log|));
    TradedTwice(s, s1, s', l, p);
  }

  // ---------- conservation ----------

  /** From the genesis accounts, every node of every run whose applied entries are fair holds exactly
      900,000,000 in all, and no balance outside 0..900,000,000. */
  lemma ClusterConserves(ss: seq<State>, genesis: Bank, i: nat, a: NodeId)
    requires Run(ss, genesis) && i < |ss| && a in ss[i].ns
    requires genesis.accounts == Conservation.GenesisUpTo(Conservation.GENESIS_ACCOUNTS)
    requires ss[i].ns[a].applied <= |ss[i].ns[a].log| && Conservation.FairLog(ss[i].ns[a].log[..ss[i].ns[a].applied])
    ensures Conservation.Sound(ss[i].ns[a].bank.accounts, Conservation.GENESIS_TOTAL)
  {
    var n := ss[i].ns[a];
    ReplicaAgreement(ss, genesis, i, i, a, a);
    Conservation.GenesisSound();
    Conservation.LogConserves(genesis, n.log[..n.applied], Conservation.GENESIS_TOTAL);
  }
}
