/** What a run can always still be made to do: bring a follower's commit index and state machine up to its
    leader's. */
module Progress {
  import opened Quorum
  import opened Bank
  import opened NodeSpec
  import opened Cluster
  import opened Invariant
  import opened HistoryFacts
  import opened Steps
  import opened ReplicationSteps
  import opened Safety
  import opened CatchUp
  import opened Runs
  import opened Reachable

  // ---------- commit ----------

  /** A follower that holds the leader's log learns its commit index from one more exchange, which changes
      nothing else at either. */
  lemma HeartbeatCommits(c: Config, n: Node, f: Node)
    requires Pair(n, f) && CaughtUp(n.log, (n, f)) && n.commit <= |n.log|
    ensures var (n', f') := Exchange(c, n, f);
            && n' == n && f'.log == f.log && f'.term == n.term && f'.applied == f.applied
            && f'.commit == Max(f.commit, Min(n.commit, |f.log|)) && f'.commit >= n.commit
  {
    AcceptsShared(n.log, f.log, |n.log|);
    assert Slice(n.log, |n.log| + 1) == [];
  }

  lemma RunHeartbeat(ss: seq<State>, genesis: Bank, l: NodeId, p: NodeId, tid: nat) returns (r: seq<State>, s': State)
    requires Run(ss, genesis) && Ready(ss[|ss| - 1], l, p, tid)
    requires var n := ss[|ss| - 1].ns[l]; CaughtUp(n.log, (n, ss[|ss| - 1].ns[p])) && n.commit <= |n.log|
    ensures Longer(ss, r, 6, genesis) && s' == r[|r| - 1] && Ready(s', l, p, tid)
    ensures var s := ss[|ss| - 1];
            && s'.ns[l] == s.ns[l] && s'.ns[p].log == s.ns[p].log
            && s'.ns[p].term == s.ns[l].term && s'.ns[p].commit >= s.ns[l].commit && Traded(s, s', l, p)
  {
    var s := ss[|ss| - 1];
    ExchangeBargains(s.c, s.ns[l], s.ns[p]);
    HeartbeatCommits(s.c, s.ns[l], s.ns[p]);
    var s1 := Asks(s, l, p, tid);
    r := Extend3(ss, genesis, Spawn(l, tid, p), Prime(l, tid), Send(l, tid));
    s' := Answers(s, s1, l, p, tid);
    ExchangedPair(s.c, s.ns[l], s.ns[p]);
    r := Extend3(r, genesis, Request(s, l, p), Reply(s, l, p, tid), Finish(l, tid));
  }

  // ---------- execution ----------

  /** n may have executed more, and is otherwise as it was. */
  predicate Executed(n: Node, n': Node, applied: nat) {
    n' == n.(applied := applied, bank := n'.bank, batch := n'.batch)
  }

  lemma ExecuteOne(s: State, i: NodeId, genesis: Bank) returns (s1: State, s2: State)
    requires Inv(s, genesis) && i in s.ns && s.ns[i].applied < s.ns[i].commit
    ensures Enabled(s, Fetch(i)) && s1 == Do(s, Fetch(i)) && Enabled(s1, Execute(i)) && s2 == Do(s1, Execute(i))
    ensures s2.c == s.c && s2.ns.Keys == s.ns.Keys && s2.ns == s.ns[i := s2.ns[i]]
    ensures Executed(s.ns[i], s2.ns[i], s.ns[i].applied + 1)
  {
    var n := s.ns[i];
    assert NodeOk(s.c, s.h, n, genesis);
    IndexOf(s.c, s.h, n.log, n.applied);
    s1 := Do(s, Fetch(i));
    assert s1.ns[i].batch != [] && s1.ns[i].batch[0] == n.log[n.applied];
    s2 := Do(s1, Execute(i));
  }

  lemma RunExecutesOne(ss: seq<State>, genesis: Bank, i: NodeId) returns (r: seq<State>, s': State)
    requires Run(ss, genesis) && i in ss[|ss| - 1].ns && ss[|ss| - 1].ns[i].applied < ss[|ss| - 1].ns[i].commit
    ensures Longer(ss, r, 2, genesis) && s' == r[|r| - 1] && s'.c == ss[|ss| - 1].c
    ensures i in s'.ns && s'.ns == ss[|ss| - 1].ns[i := s'.ns[i]]
    ensures Executed(ss[|ss| - 1].ns[i], s'.ns[i], ss[|ss| - 1].ns[i].applied + 1)
  {
    RunOk(ss, genesis, |ss| - 1);
    var s1;
    s1, s' := ExecuteOne(ss[|ss| - 1], i, genesis);
    r := Extend(ss, genesis, Fetch(i));
    r := Extend(r, genesis, Execute(i));
  }

  /** A node can always execute all it has committed, two steps an entry, while nobody else moves. */
  lemma {:induction false} RunExecutes(ss: seq<State>, genesis: Bank, i: NodeId, k: nat)
      returns (r: seq<State>, s': State)
    requires Run(ss, genesis) && i in ss[|ss| - 1].ns && k == Sub(ss[|ss| - 1].ns[i].commit, ss[|ss| - 1].ns[i].applied)
    ensures Longer(ss, r, 2 * k, genesis) && s' == r[|r| - 1] && s'.c == ss[|ss| - 1].c
    ensures i in s'.ns && s'.ns == ss[|ss| - 1].ns[i := s'.ns[i]]
    ensures Executed(ss[|ss| - 1].ns[i], s'.ns[i], ss[|ss| - 1].ns[i].applied + k)
    decreases k
  {
    if k == 0 {
      r, s' := ss, ss[|ss| - 1];
    } else {
      r, s' := RunExecutesOne(ss, genesis, i);
      r, s' := RunExecutes(r, genesis, i, k - 1);
    }
  }

  function Sub(x: nat, y: nat): nat { if x > y then x - y else 0 }

  // ---------- a follower brought level ----------

  /** p has committed and executed all that l has committed, and its state machine is what l's log folds to. */
  ghost predicate Level(s: State, l: NodeId, p: NodeId, genesis: Bank) {
    && l in s.ns && p in s.ns && s.ns[p].commit >= s.ns[l].commit
    && s.ns[l].commit <= s.ns[p].applied <= |s.ns[l].log|
    && s.ns[p].bank == Fold(genesis, s.ns[l].log[..s.ns[p].applied])
  }

  lemma LevelIfApplied(ss: seq<State>, genesis: Bank, l: NodeId, p: NodeId)
    requires Run(ss, genesis) && l in ss[|ss| - 1].ns && p in ss[|ss| - 1].ns
    requires var n, f := ss[|ss| - 1].ns[l], ss[|ss| - 1].ns[p];
             n.role == LEADER && f.term <= n.term && n.commit <= f.commit <= f.applied
    ensures Level(ss[|ss| - 1], l, p, genesis)
  {
    var s := ss[|ss| - 1];
    var n, f := s.ns[l], s.ns[p];
    RunOk(ss, genesis, |ss| - 1);
    LeaderFacts(s, l, genesis);
    assert NodeOk(s.c, s.h, f, genesis);
    SafeInReign(s.c, s.h, f.log[..Settled(f)], f.term, n.term);
    assert f.log[..f.applied] == f.log[..Settled(f)][..f.applied] == n.log[..f.applied];
  }

  lemma CommitWithin(ss: seq<State>, genesis: Bank, l: NodeId)
    requires Run(ss, genesis) && l in ss[|ss| - 1].ns
    ensures ss[|ss| - 1].ns[l].commit <= |ss[|ss| - 1].ns[l].log|
  {
    RunOk(ss, genesis, |ss| - 1);
    assert NodeOk(ss[|ss| - 1].c, ss[|ss| - 1].h, ss[|ss| - 1].ns[l], genesis);
  }

  /** Every run can be continued until p is level with l, for any present leader l and any node p not ahead of
      it in term that l has no thread for. */
  lemma ReachableLevel(ss: seq<State>, genesis: Bank, l: NodeId, p: NodeId, tid: nat)
      returns (k: nat, r: seq<State>, s': State)
    requires Run(ss, genesis) && l in ss[|ss| - 1].ns && p in ss[|ss| - 1].ns && p != l
    requires ss[|ss| - 1].ns[l].role == LEADER && ss[|ss| - 1].ns[p].term <= ss[|ss| - 1].ns[l].term
    requires p !in ss[|ss| - 1].ns[l].busy && tid !in ss[|ss| - 1].ns[l].workers
    ensures Longer(ss, r, k, genesis) && s' == r[|r| - 1] && Level(s', l, p, genesis)
    ensures Traded(ss[|ss| - 1], s', l, p)
  {
    var d, k1, s1;
    d, k1, r, s1 := ReachableCatchesUp(ss, genesis, l, p, tid);
    CommitWithin(r, genesis, l);
    var s2;
    r, s2 := RunHeartbeat(r, genesis, l, p, tid);
    TradedTwice(ss[|ss| - 1], s1, s2, l, p);
    var k2 := Sub(s2.ns[p].commit, s2.ns[p].applied);
    r, s' := RunExecutes(r, genesis, p, k2);
    k := 6 * k1 + 6 + 2 * k2;
    LevelIfApplied(r, genesis, l, p);
  }
}
