/** The two locked reads behind an AppendEntries message: exactly when the message leaves a follower whole,
    when they can differ, and a run to a state in which they do. */
module StaleRead {
  import opened Quorum
  import opened Bank
  import opened NodeSpec
  import opened Cluster
  import opened Invariant
  import opened Safety
  import opened Store
  import opened Compaction
  import opened Records
  import opened CatchUp
  import opened Runs
  import opened Witness

  // ---------- what the guard of the send step buys ----------

  /** The follower d, whose log matches the leader's log x, accepts a message at prev, where its log ends. */
  predicate EndsAt(x: Log, d: Disk, prev: nat) {
    && InStep(d) && Matched(x, Reads(d)) && d.last == prev <= |x|
    && (prev > 0 ==> d.lastTerm == TermAt(x, prev))
  }

  lemma EndShared(x: Log, d: Disk, prev: nat)
    requires EndsAt(x, d, prev)
    ensures Reads(d) == x[..prev]
  {
    if prev > 0 {
      var k := prev - 1;
      assert Reads(d)[k].term == x[k].term;
      assert Reads(d)[..k + 1] == Reads(d);
    }
  }

  lemma SliceJoins(x: Log, prev: nat, entries: Log)
    requires prev < |x| && entries == Slice(x, prev + 1)
    ensures Splice(x[..prev], prev, entries) == x[..prev + |entries|]
  {
    var y := x[..prev];
    assert y[..prev] + entries == x[..prev + |entries|];
  }

  /** The follower's log is the leader's up to m, and a restart would find it so. */
  predicate Whole(x: Log, d: Disk, m: nat) {
    InStep(d) && m <= |x| && Reads(d) == x[..m]
  }

  /** The follower's log is no prefix of the leader's, RAM and storage disagree on where it ends, and a
      record below that end is missing. */
  predicate Broken(x: Log, d: Disk) {
    !(Reads(d) <= x) && d.last != d.stored && MISSING in Reads(d)
  }

  lemma LastOfSlice(x: Log, from: nat)
    requires Numbered(x) && 1 <= from <= |x|
    ensures var s := Slice(x, from); s != [] && s[|s| - 1].index == from - 1 + |s| <= |x| && NumberedFrom(s, from)
  {
    var s := Slice(x, from);
    forall k | 0 <= k < |s| ensures s[k].index == from + k {
      assert s[k] == x[from - 1 + k];
    }
  }

  lemma ContiguousWhole(x: Log, d: Disk, prev: nat)
    requires Numbered(x) && EndsAt(x, d, prev) && prev < |x|
    ensures var entries := Slice(x, prev + 1); Whole(x, TookAll(d, prev, entries), prev + |entries|)
  {
    var entries := Slice(x, prev + 1);
    LastOfSlice(x, prev + 1);
    EndShared(x, d, prev);
    SliceJoins(x, prev, entries);
    TookAllReads(d, prev, entries);
  }

  lemma HoleParts(x: Log, y: Log, k: nat)
    requires k < |x| && x[k] == MISSING && Live(y)
    ensures !(x <= y) && MISSING in x
  {
    assert k < |y| ==> x[k] != y[k];
  }

  /** The hole is right after prevLogIndex if nextIndex is above it, and at the last position counted up to
      if nextIndex is not. */
  lemma Hole(x: Log, d: Disk, entries: Log, next: nat)
    requires Live(x) && InStep(d) && entries != [] && next >= 1 && next != d.last + 1 && NumberedFrom(entries, next)
    ensures Broken(x, TookAll(d, d.last, entries))
  {
    HoleRead(d, entries, next);
    var d' := TookAll(d, d.last, entries);
    HoleParts(Reads(d'), x, if next > d.last + 1 then d.last else d'.last - 1);
  }

  lemma HoleRead(d: Disk, entries: Log, next: nat)
    requires InStep(d) && entries != [] && next >= 1 && next != d.last + 1 && NumberedFrom(entries, next)
    ensures var d' := TookAll(d, d.last, entries);
            && d'.last == d.last + |entries| && d'.last != d'.stored
            && Reads(d')[if next > d.last + 1 then d.last else d'.last - 1] == MISSING
  {
    TookPast(d, entries, next);
    var d' := TookAll(d, d.last, entries);
    var hole := if next > d.last + 1 then d.last + 1 else d'.last;
    assert Same(d'.logs, d.logs, hole);
  }

  lemma NotBoth(x: Log, d: Disk, m: nat)
    ensures !(Whole(x, d, m) && Broken(x, d))
  {
  }

  /** A follower that accepts a message with entries right at the end of its log holds afterwards exactly
      what the leader's new matchIndex, the index of the last entry, says if the prevLogIndex read under
      the first lock still was nextIndex - 1 at the second, and is broken if it was not. */
  lemma ContiguousIff(n: Node, peer: NodeId, prev: nat, d: Disk)
    requires Numbered(n.log) && Live(n.log) && 1 <= Lookup(n.next, peer) <= |n.log| && EndsAt(n.log, d, prev)
    ensures var entries := BuildAppend(n, peer, prev).entries; var d' := TookAll(d, prev, entries);
            && entries != []
            && (Whole(n.log, d', entries[|entries| - 1].index) <==> prev + 1 == Lookup(n.next, peer))
            && (Broken(n.log, d') <==> prev + 1 != Lookup(n.next, peer))
  {
    var next := Lookup(n.next, peer);
    var entries := Slice(n.log, next);
    LastOfSlice(n.log, next);
    NotBoth(n.log, TookAll(d, prev, entries), next - 1 + |entries|);
    if prev + 1 == next {
      ContiguousWhole(n.log, d, prev);
    } else {
      Hole(n.log, d, entries, next);
    }
  }

  // ---------- when the reads can differ ----------

  /** In a run, the guard can stop a thread only after its node lost the leadership it first read under and
      then won another. */
  lemma StoppedIff(ss: seq<State>, genesis: Bank, i: nat, l: NodeId, t: nat)
    requires Run(ss, genesis) && i < |ss| && HasWorker(ss[i], l, t) && ss[i].ns[l].workers[t].Primed?
    ensures var n := ss[i].ns[l]; var w := n.workers[t];
            && (!Enabled(ss[i], Send(l, t)) <==> n.role == LEADER && !Contiguous(n, w))
            && (!Enabled(ss[i], Send(l, t)) ==> n.role == LEADER && w.term < n.term)
  {
    RunOk(ss, genesis, i);
    assert NodeOk(ss[i].c, ss[i].h, ss[i].ns[l], genesis);
    assert WorkerOk(ss[i].ns[l], ss[i].ns[l].workers[t]);
  }

  // ---------- a run in which they do ----------

  function Deposed(c: Config, g: Bank, cmd: Command): Node {
    BecomeFollower(Busy(c, g, cmd, Primed(1, 1, 0)), 2)
  }

  function Rival(g: Bank): Node { StartElection(Voter(g)) }

  function Again(c: Config, g: Bank, cmd: Command): Node {
    BecomeLeader(c, StartElection(Deposed(c, g, cmd)).(granted := {0, 1}))
  }

  function Elector(g: Bank): Node { BecomeFollower(Rival(g), 3).(votedFor := 0) }

  /** The leader of term 3, whose thread still is the one primed in term 1. */
  function Stale(c: Config, g: Bank, cmd: Command, second: Command): Node {
    Again(c, g, cmd).(log := [Entry(1, 1, cmd), Entry(3, 2, second)])
  }

  const LOSE1: Step := Election(1)
  const LOSE2: Step := OnVoteReq(VoteReq(0, 1, 2, 0, 0))
  const LOSE3: Step := Election(0)
  const WIN1: Step := OnVoteReq(VoteReq(1, 0, 3, 1, 1))
  const WIN2: Step := OnVoteRep(VoteRep(1, 0, 3, 3, true))

  lemma Recount(c: Config, g: Bank, cmd: Command, second: Command)
    requires TwoNodes(c)
    ensures HandleVote(Busy(c, g, cmd, Primed(1, 1, 0)), 2, 1, 0, 0) == Verdict(Deposed(c, g, cmd), 2, false)
    ensures HandleVote(Rival(g), 3, 0, 1, 1) == Verdict(Elector(g), 3, true)
    ensures CountVote(c, StartElection(Deposed(c, g, cmd)), 1, 3, 3, true) == Again(c, g, cmd)
    ensures ClientAppend(Again(c, g, cmd), second) == Stale(c, g, cmd, second)
    ensures Lookup(Stale(c, g, cmd, second).next, 1) == 2
  {
    Others(c);
    assert {0} + {1} == {0, 1} && |{0, 1}| == 2;
    assert Log1(cmd) + [Entry(3, 2, second)] == [Entry(1, 1, cmd), Entry(3, 2, second)];
  }

  /** Node 1 stands in term 2, which deposes node 0, and node 0 stands in term 3. */
  lemma Loses(s: State, g: Bank, cmd: Command)
    requires At(s, Busy(s.c, g, cmd, Primed(1, 1, 0)), Voter(g))
    ensures CanTake(s, LOSE1, LOSE2, LOSE3)
    ensures At(Take(s, LOSE1, LOSE2, LOSE3), StartElection(Deposed(s.c, g, cmd)), Rival(g))
    ensures VoteReq(1, 0, 3, 1, 1) in Take(s, LOSE1, LOSE2, LOSE3).net
  {
    Others(s.c);
    Recount(s.c, g, cmd, cmd);
    var s1 := Do(s, LOSE1);
    assert At(s1, Busy(s.c, g, cmd, Primed(1, 1, 0)), Rival(g));
    var s2 := Do(s1, LOSE2);
    assert At(s2, Deposed(s.c, g, cmd), Rival(g));
  }

  lemma Wins(s: State, g: Bank, cmd: Command, second: Command)
    requires At(s, StartElection(Deposed(s.c, g, cmd)), Rival(g)) && VoteReq(1, 0, 3, 1, 1) in s.net
    ensures CanTake(s, WIN1, WIN2, Client(0, second))
    ensures At(Take(s, WIN1, WIN2, Client(0, second)), Stale(s.c, g, cmd, second), Elector(g))
  {
    Recount(s.c, g, cmd, second);
    var s1 := Do(s, WIN1);
    assert At(s1, StartElection(Deposed(s.c, g, cmd)), Elector(g));
    var s2 := Do(s1, WIN2);
    assert At(s2, Again(s.c, g, cmd), Elector(g));
  }

  lemma RunLoses(ss: seq<State>, g: Bank, cmd: Command) returns (r: seq<State>)
    requires Run(ss, g) && At(ss[|ss| - 1], Busy(ss[|ss| - 1].c, g, cmd, Primed(1, 1, 0)), Voter(g))
    ensures Longer(ss, r, 3, g) && r[|r| - 1].c == ss[|ss| - 1].c && VoteReq(1, 0, 3, 1, 1) in r[|r| - 1].net
    ensures At(r[|r| - 1], StartElection(Deposed(ss[|ss| - 1].c, g, cmd)), Rival(g))
  {
    Loses(ss[|ss| - 1], g, cmd);
    r := Extend3(ss, g, LOSE1, LOSE2, LOSE3);
  }

  lemma RunWins(ss: seq<State>, g: Bank, cmd: Command, second: Command) returns (r: seq<State>)
    requires Run(ss, g) && VoteReq(1, 0, 3, 1, 1) in ss[|ss| - 1].net
    requires At(ss[|ss| - 1], StartElection(Deposed(ss[|ss| - 1].c, g, cmd)), Rival(g))
    ensures Longer(ss, r, 3, g) && At(r[|r| - 1], Stale(ss[|ss| - 1].c, g, cmd, second), Elector(g))
  {
    Wins(ss[|ss| - 1], g, cmd, second);
    r := Extend3(ss, g, WIN1, WIN2, Client(0, second));
  }

  /** What sending in that state would do: the follower's RAM says that its log ends at 1, its storage says 2,
      record 1 is missing, and the leader commits both entries. */
  predicate Breaks(c: Config, l: Node, d: Disk, second: Command) {
    var a := BuildAppend(l, 1, 0);
    var d' := TookAll(d, 0, a.entries);
    && a.term == l.term && a.prev == 0 && d'.logs == map[2 := Entry(3, 2, second)]
    && d'.last == 1 && d'.stored == 2 && Reads(d') == [MISSING] && !InStep(d')
    && HandleAppendReply(c, l, 1, a, l.term, true).commit == 2
  }

  lemma StaleBreaks(c: Config, g: Bank, cmd: Command, second: Command)
    requires TwoNodes(c)
    ensures Breaks(c, Stale(c, g, cmd, second), Disk(map[], 0, 0, 0), second)
  {
    Others(c);
    Recount(c, g, cmd, second);
    var l, e := Stale(c, g, cmd, second), Entry(3, 2, second);
    var a := BuildAppend(l, 1, 0);
    assert a.entries == [e];
    assert TookAll(Disk(map[], 0, 0, 0), 0, [e]) == Took(Disk(map[], 0, 0, 0), 1, e);
    var m := l.(next := l.next[1 := 3], matched := l.matched[1 := 2]);
    assert Holders(c, m, 2) == {1};
    assert CommitScan(c, m, 2) == 2;
  }

  /** For all commands and both kinds of peer list there is a run to a state in which the guard stops a
      primed thread of a leader, and in which its message would break a follower that accepts it. */
  lemma StaleReadBreaks(s: State, g: Bank, cmd: Command, second: Command) returns (ss: seq<State>)
    requires Init(s, g) && TwoNodes(s.c)
    ensures Run(ss, g) && |ss| == 13 && ss[0] == s
    ensures HasWorker(ss[12], 0, 0) && ss[12].ns[0].workers[0] == Primed(1, 1, 0) && !Enabled(ss[12], Send(0, 0))
    ensures 1 in ss[12].ns && ss[12].ns[1].log == [] && ss[12].ns[1].term == ss[12].ns[0].term
    ensures ss[12].ns[0].role == LEADER && Breaks(s.c, ss[12].ns[0], Disk(map[], 0, 0, 0), second)
  {
    ss := RunPrimes(s, g, cmd);
    ss := RunLoses(ss, g, cmd);
    ss := RunWins(ss, g, cmd, second);
    Recount(s.c, g, cmd, second);
    StaleBreaks(s.c, g, cmd, second);
  }
}
