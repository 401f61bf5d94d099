/** A run of two nodes in which a leader is elected and an entry is replicated, committed and executed:
    the theorems over runs do not hold for want of runs. The peer lists may hold the node itself or not. */
module Witness {
  import opened Quorum
  import opened Bank
  import opened NodeSpec
  import opened Cluster
  import opened Runs

  predicate TwoNodes(c: Config) { c.nodes == {0, 1} }

  /** The two nodes of the cluster are a and b. */
  predicate At(s: State, a: Node, b: Node) {
    TwoNodes(s.c) && 0 in s.ns && 1 in s.ns && s.ns[0] == a && s.ns[1] == b && a.id == 0 && b.id == 1
  }

  lemma Others(c: Config)
    requires TwoNodes(c)
    ensures c.Peers(0) == {1} && c.Peers(1) == {0} && c.Listed(0) - {0} == {1} && 1 in c.Listed(0)
    ensures c.Needed() == 2 && (c.ListSize() + 1) / 2 == 1
  {
    assert c.nodes - {0} == {1} && c.nodes - {1} == {0};
    assert |c.nodes| == 2;
  }

  // ---------- election ----------

  function Voter(g: Bank): Node { Genesis(1, g).(term := 1, votedFor := 0) }

  function Leader(c: Config, g: Bank): Node {
    BecomeLeader(c, Genesis(0, g).(term := 1, votedFor := 0, role := CANDIDATE, granted := {0, 1}))
  }

  lemma Campaign(c: Config, g: Bank)
    requires TwoNodes(c)
    ensures HandleVote(Genesis(1, g), 1, 0, 0, 0) == Verdict(Voter(g), 1, true)
    ensures CountVote(c, StartElection(Genesis(0, g)), 1, 1, 1, true) == Leader(c, g)
    ensures Lookup(Leader(c, g).next, 1) == 1 && Lookup(Leader(c, g).matched, 1) == 0
  {
    Others(c);
    assert {0} + {1} == {0, 1} && |{0, 1}| == 2;
  }

  lemma Booted(s: State, g: Bank)
    requires Init(s, g) && TwoNodes(s.c)
    ensures At(s, Genesis(0, g), Genesis(1, g))
  {
  }

  const ELECT1: Step := Election(0)
  const ELECT2: Step := OnVoteReq(VoteReq(1, 0, 1, 0, 0))
  const ELECT3: Step := OnVoteRep(VoteRep(1, 0, 1, 1, true))

  /** Node 0 is elected in term 1. */
  lemma Elected(s: State, g: Bank)
    requires At(s, Genesis(0, g), Genesis(1, g))
    ensures CanTake(s, ELECT1, ELECT2, ELECT3) && At(Take(s, ELECT1, ELECT2, ELECT3), Leader(s.c, g), Voter(g))
  {
    Campaign(s.c, g);
    Others(s.c);
    var s1 := Do(s, ELECT1);
    assert At(s1, StartElection(Genesis(0, g)), Genesis(1, g));
    var s2 := Do(s1, ELECT2);
    assert At(s2, StartElection(Genesis(0, g)), Voter(g));
  }

  // ---------- replication ----------

  function Log1(cmd: Command): Log { [Entry(1, 1, cmd)] }

  function Args(cmd: Command): AppendArgs { AppendArgs(1, 0, 0, 0, Log1(cmd), 0) }

  /** The leader with one entry and one thread for node 1. */
  function Busy(c: Config, g: Bank, cmd: Command, w: Worker): Node {
    Leader(c, g).(log := Log1(cmd), busy := {1}, workers := map[0 := w])
  }

  function Done(c: Config, g: Bank, cmd: Command): Node {
    var n := Busy(c, g, cmd, Returned(1));
    n.(next := n.next[1 := 2], matched := n.matched[1 := 1], commit := 1)
  }

  lemma Sliced(cmd: Command)
    ensures Slice(Log1(cmd), 1) == Log1(cmd)
  {
  }

  lemma Shipped(c: Config, g: Bank, cmd: Command)
    requires TwoNodes(c)
    ensures ClientAppend(Leader(c, g), cmd) == Leader(c, g).(log := Log1(cmd))
    ensures HandleAppend(Voter(g), Args(cmd)) == Verdict(Voter(g).(log := Log1(cmd)), 1, true)
  {
    Campaign(c, g);
  }

  /** n leads and has executed the one entry, which both hold. */
  predicate Succeeds(n: Node, p: Node, g: Bank, cmd: Command) {
    && n.role == LEADER && n.commit == n.applied == 1
    && n.log == p.log == Log1(cmd) && n.bank == Apply(g, Entry(1, 1, cmd))
  }

  /** The leader once its thread has ended. */
  function Rested(c: Config, g: Bank, cmd: Command): Node {
    var n := Done(c, g, cmd);
    n.(busy := n.busy - {1}, workers := n.workers - {0})
  }

  lemma Executed(c: Config, g: Bank, cmd: Command)
    ensures Succeeds(ApplyNext(FetchBatch(Rested(c, g, cmd))), Voter(g).(log := Log1(cmd)), g, cmd)
  {
    assert Log1(cmd)[0..1] == Log1(cmd);
  }

  lemma Acknowledged(c: Config, g: Bank, cmd: Command)
    requires TwoNodes(c)
    ensures var n := HandleAppendReply(c, Busy(c, g, cmd, Waiting(1, Args(cmd))), 1, Args(cmd), 1, true);
            n.(workers := n.workers[0 := Returned(1)]) == Done(c, g, cmd)
  {
    Campaign(c, g);
    Others(c);
    var b := Busy(c, g, cmd, Waiting(1, Args(cmd)));
    var m := b.(next := b.next[1 := 2], matched := b.matched[1 := 1]);
    assert Holders(c, m, 1) == {1};
    assert CommitScan(c, m, 1) == 1;
  }

  /** The leader takes an entry and starts a thread for node 1. */
  lemma Started(s: State, g: Bank, cmd: Command)
    requires At(s, Leader(s.c, g), Voter(g))
    ensures CanTake(s, Client(0, cmd), Spawn(0, 0, 1), Prime(0, 0))
    ensures At(Take(s, Client(0, cmd), Spawn(0, 0, 1), Prime(0, 0)), Busy(s.c, g, cmd, Primed(1, 1, 0)), Voter(g))
  {
    var l := Leader(s.c, g);
    Campaign(s.c, g);
    Shipped(s.c, g, cmd);
    Others(s.c);
    var s1 := Do(s, Client(0, cmd));
    assert At(s1, l.(log := Log1(cmd)), Voter(g));
    var s2 := Do(s1, Spawn(0, 0, 1));
    assert l.(log := Log1(cmd), busy := {} + {1}, workers := map[][0 := Spawned(1)]) == Busy(s.c, g, cmd, Spawned(1));
    assert At(s2, Busy(s.c, g, cmd, Spawned(1)), Voter(g));
  }

  function Request(cmd: Command): Step { OnAppendReq(AppendReq(1, Args(cmd))) }

  function Reply(cmd: Command): Step { OnAppendRep(0, 0, AppendRep(1, Args(cmd), 1, true)) }

  /** A primed thread of node 0 sends its message, which node 1 answers. */
  lemma Answered(s: State, l: Node, p: Node, w: Worker, a: AppendArgs, v: Verdict)
    requires At(s, l, p) && l.role == LEADER && 0 in l.workers && l.workers[0] == w
    requires w.Primed? && w.peer == 1 && Contiguous(l, w) && a == BuildAppend(l, 1, w.prev) && v == HandleAppend(p, a)
    ensures var answer := OnAppendRep(0, 0, AppendRep(1, a, v.term, v.ok));
            var n := HandleAppendReply(s.c, l.(workers := l.workers[0 := Waiting(1, a)]), 1, a, v.term, v.ok);
            && CanTake(s, Send(0, 0), OnAppendReq(AppendReq(1, a)), answer)
            && At(Take(s, Send(0, 0), OnAppendReq(AppendReq(1, a)), answer),
                  n.(workers := n.workers[0 := Returned(1)]), v.node)
  {
    var s1 := Do(s, Send(0, 0));
    assert At(s1, l.(workers := l.workers[0 := Waiting(1, a)]), p);
    var s2 := Do(s1, OnAppendReq(AppendReq(1, a)));
    assert At(s2, l.(workers := l.workers[0 := Waiting(1, a)]), v.node);
  }

  /** The thread ends and the entry is executed. */
  lemma Ended(s: State, g: Bank, cmd: Command)
    requires At(s, Done(s.c, g, cmd), Voter(g).(log := Log1(cmd)))
    ensures CanTake(s, Finish(0, 0), Fetch(0), Execute(0))
    ensures var s' := Take(s, Finish(0, 0), Fetch(0), Execute(0));
            0 in s'.ns && 1 in s'.ns && Succeeds(s'.ns[0], s'.ns[1], g, cmd)
  {
    Executed(s.c, g, cmd);
    var s1 := Do(s, Finish(0, 0));
    assert At(s1, Rested(s.c, g, cmd), Voter(g).(log := Log1(cmd)));
  }

  lemma RunElects(ss: seq<State>, g: Bank) returns (r: seq<State>)
    requires Run(ss, g) && At(ss[|ss| - 1], Genesis(0, g), Genesis(1, g))
    ensures Longer(ss, r, 3, g) && r[|r| - 1].c == ss[|ss| - 1].c
    ensures At(r[|r| - 1], Leader(ss[|ss| - 1].c, g), Voter(g))
  {
    Elected(ss[|ss| - 1], g);
    r := Extend3(ss, g, ELECT1, ELECT2, ELECT3);
  }

  lemma RunStarts(ss: seq<State>, g: Bank, cmd: Command) returns (r: seq<State>)
    requires Run(ss, g) && At(ss[|ss| - 1], Leader(ss[|ss| - 1].c, g), Voter(g))
    ensures Longer(ss, r, 3, g) && r[|r| - 1].c == ss[|ss| - 1].c
    ensures At(r[|r| - 1], Busy(ss[|ss| - 1].c, g, cmd, Primed(1, 1, 0)), Voter(g))
  {
    Started(ss[|ss| - 1], g, cmd);
    r := Extend3(ss, g, Client(0, cmd), Spawn(0, 0, 1), Prime(0, 0));
  }

  lemma RunEnds(ss: seq<State>, g: Bank, cmd: Command) returns (r: seq<State>)
    requires Run(ss, g) && At(ss[|ss| - 1], Done(ss[|ss| - 1].c, g, cmd), Voter(g).(log := Log1(cmd)))
    ensures Longer(ss, r, 3, g)
    ensures var s := r[|r| - 1]; 0 in s.ns && 1 in s.ns && Succeeds(s.ns[0], s.ns[1], g, cmd)
  {
    Ended(ss[|ss| - 1], g, cmd);
    r := Extend3(ss, g, Finish(0, 0), Fetch(0), Execute(0));
  }

  lemma RunDelivers(ss: seq<State>, g: Bank, cmd: Command) returns (r: seq<State>)
    requires Run(ss, g) && At(ss[|ss| - 1], Busy(ss[|ss| - 1].c, g, cmd, Primed(1, 1, 0)), Voter(g))
    ensures Longer(ss, r, 3, g) && r[|r| - 1].c == ss[|ss| - 1].c
    ensures At(r[|r| - 1], Done(ss[|ss| - 1].c, g, cmd), Voter(g).(log := Log1(cmd)))
  {
    var s := ss[|ss| - 1];
    Campaign(s.c, g);
    Shipped(s.c, g, cmd);
    Acknowledged(s.c, g, cmd);
    Sliced(cmd);
    var l := Busy(s.c, g, cmd, Primed(1, 1, 0));
    assert l.(workers := l.workers[0 := Waiting(1, Args(cmd))]) == Busy(s.c, g, cmd, Waiting(1, Args(cmd)));
    Answered(s, l, Voter(g), Primed(1, 1, 0), Args(cmd), HandleAppend(Voter(g), Args(cmd)));
    r := Extend3(ss, g, Send(0, 0), Request(cmd), Reply(cmd));
  }

  /** Six steps after boot node 0 leads term 1 with one entry and a thread that has read prevLogIndex as 0. */
  lemma RunPrimes(s: State, g: Bank, cmd: Command) returns (ss: seq<State>)
    requires Init(s, g) && TwoNodes(s.c)
    ensures Run(ss, g) && |ss| == 7 && ss[0] == s
    ensures ss[6].c == s.c && At(ss[6], Busy(s.c, g, cmd, Primed(1, 1, 0)), Voter(g))
  {
    Booted(s, g);
    ss := RunElects([s], g);
    ss := RunStarts(ss, g, cmd);
  }

  /** Runs that elect, replicate, commit and execute exist, for every command, every genesis and both kinds
      of peer list. */
  lemma SomeRunCommits(s: State, g: Bank, cmd: Command) returns (ss: seq<State>)
    requires Init(s, g) && TwoNodes(s.c)
    ensures Run(ss, g) && |ss| == 13 && ss[0] == s
    ensures 0 in ss[12].ns && 1 in ss[12].ns && Succeeds(ss[12].ns[0], ss[12].ns[1], g, cmd)
  {
    ss := RunPrimes(s, g, cmd);
    ss := RunDelivers(ss, g, cmd);
    ss := RunEnds(ss, g, cmd);
  }
}
