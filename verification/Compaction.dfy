/** A node whose first log records were compacted away, against the same node with its full log: which of
    its steps come out the same, and exactly which messages it handles otherwise. */
module Compaction {
  import opened Quorum
  import opened Bank
  import opened NodeSpec
  import opened Cluster
  import opened Invariant
  import opened HistoryFacts
  import opened Frame
  import opened Steps
  import opened ReplicationSteps
  import opened Safety
  import opened Store

  /** The log as it is read once records 1..c are gone. */
  function Cut(x: Log, c: nat): Log {
    seq(|x|, k requires 0 <= k < |x| => if k < c then MISSING else x[k])
  }

  function CutNode(n: Node, c: nat): Node { n.(log := Cut(n.log, c)) }

  /** Entries of real leaders, whose terms are positive. */
  predicate Live(x: Log) { forall k :: 0 <= k < |x| ==> x[k].term >= 1 }

  lemma CompactCuts(logs: map<nat, Entry>, last: nat, upTo: int)
    ensures LogOf(Without(logs, 0, upTo), last) == Cut(LogOf(logs, last), if upTo > 0 then upTo else 0)
  {
  }

  lemma CutTwice(x: Log, a: nat, b: nat)
    ensures Cut(Cut(x, a), b) == Cut(x, Max(a, b))
  {
  }

  // ---------- elections, client appends, the executor ----------

  /** Voting, standing and appending look at the log's end only. */
  lemma EndSuffices(n: Node, c: nat, cmd: Command, term: nat, peer: NodeId, lastIndex: nat, lastTerm: nat)
    requires c == 0 || c < |n.log|
    ensures var v := HandleVote(n, term, peer, lastIndex, lastTerm);
            HandleVote(CutNode(n, c), term, peer, lastIndex, lastTerm) == v.(node := CutNode(v.node, c))
    ensures StartElection(CutNode(n, c)) == CutNode(StartElection(n), c) && LastTerm(Cut(n.log, c)) == LastTerm(n.log)
    ensures ClientAppend(CutNode(n, c), cmd) == CutNode(ClientAppend(n, cmd), c)
  {
  }

  /** Winning looks at its length only. */
  lemma CountSame(cfg: Config, n: Node, c: nat, peer: NodeId, term: nat, reply: nat, ok: bool)
    ensures CountVote(cfg, CutNode(n, c), peer, term, reply, ok) == CutNode(CountVote(cfg, n, peer, term, reply, ok), c)
  {
  }

  /** The executor reads above lastApplied only. */
  lemma ExecutorSame(n: Node, c: nat)
    requires c <= n.applied
    ensures FetchBatch(CutNode(n, c)) == CutNode(FetchBatch(n), c)
    ensures ApplyNext(CutNode(n, c)) == CutNode(ApplyNext(n), c)
    ensures Restart(CutNode(n, c)) == CutNode(Restart(n), c)
  {
    if n.batch == [] && n.applied < n.commit <= |n.log| {
      var hi := Min(n.commit, n.applied + BATCH);
      assert Cut(n.log, c)[n.applied..hi] == n.log[n.applied..hi];
    }
  }

  // ---------- handling AppendEntries ----------

  lemma AcceptsCut(x: Log, c: nat, prev: nat, prevTerm: nat)
    requires Live(x) && c <= |x| && (prev >= 1 ==> prevTerm >= 1)
    ensures Accepts(Cut(x, c), prev, prevTerm) <==> Accepts(x, prev, prevTerm) && (prev == 0 || prev > c)
  {
  }

  lemma {:induction false} SpliceAbove(x: Log, c: nat, prev: nat, entries: Log)
    requires c <= prev <= |x|
    ensures Splice(Cut(x, c), prev, entries) == Cut(Splice(x, prev, entries), c)
    decreases |entries|
  {
    if entries != [] && prev < |x| && x[prev].term == entries[0].term {
      SpliceAbove(x, c, prev + 1, entries[1..]);
    }
  }

  /** The message agrees with the log in every entry it carries. */
  predicate Agrees(x: Log, entries: Log) {
    |entries| <= |x| && forall k :: 0 <= k < |entries| ==> x[k].term == entries[k].term
  }

  /** Same term, same entry, as log matching promises of every message in flight. */
  predicate Matches(x: Log, prev: nat, entries: Log) {
    forall k :: 0 <= k < |entries| && prev + k < |x| && x[prev + k].term == entries[k].term ==>
      x[prev + k] == entries[k]
  }

  lemma {:induction false} SpliceFull(x: Log, prev: nat, entries: Log)
    requires prev <= |x| && Matches(x, prev, entries)
    ensures if prev + |entries| <= |x| && (forall k :: 0 <= k < |entries| ==> x[prev + k].term == entries[k].term)
            then Splice(x, prev, entries) == x else Splice(x, prev, entries) == x[..prev] + entries
    decreases |entries|
  {
    if entries != [] && prev < |x| && x[prev].term == entries[0].term {
      var rest := entries[1..];
      forall k | 0 <= k < |rest| && prev + 1 + k < |x| && x[prev + 1 + k].term == rest[k].term
        ensures x[prev + 1 + k] == rest[k]
      {
        assert rest[k] == entries[k + 1];
      }
      SpliceFull(x, prev + 1, rest);
      SplitAgreement(x, prev, entries);
      assert x[..prev + 1] + rest == x[..prev] + entries;
    }
  }

  lemma SplitAgreement(x: Log, prev: nat, entries: Log)
    requires entries != [] && prev < |x| && x[prev].term == entries[0].term
    ensures (prev + |entries| <= |x| && forall k :: 0 <= k < |entries| ==> x[prev + k].term == entries[k].term)
       <==> (prev + 1 + |entries[1..]| <= |x| &&
             forall k :: 0 <= k < |entries[1..]| ==> x[prev + 1 + k].term == entries[1..][k].term)
  {
    var rest := entries[1..];
    if prev + |entries| <= |x| && forall k :: 0 <= k < |rest| ==> x[prev + 1 + k].term == rest[k].term {
      forall k | 0 <= k < |entries| ensures x[prev + k].term == entries[k].term {
        if k > 0 {
          assert rest[k - 1] == entries[k] && x[prev + 1 + (k - 1)].term == rest[k - 1].term;
        }
      }
    }
  }

  /** A message that a node with records 1..c gone does not handle as the full node would: it starts inside
      the gap and the full log would accept it; and if it starts at the very beginning, where there is
      nothing to compare, it agrees with the log and ends before it. */
  predicate Mishandled(x: Log, c: nat, a: AppendArgs) {
    && 1 <= c && a.prev <= c && Accepts(x, a.prev, a.prevTerm)
    && (a.prev == 0 ==> a.entries != [] && |a.entries| < |x| && Agrees(x, a.entries))
  }

  /** The compacted node m answers v' where the full node answers v. */
  ghost predicate SameVerdict(v: Verdict, v': Verdict, c: nat) {
    exists d: nat :: d <= c && v' == v.(node := CutNode(v.node, d))
  }

  predicate Sensible(x: Log, a: AppendArgs) {
    Live(x) && Live(a.entries) && (a.prev >= 1 ==> a.prevTerm >= 1) && Matches(x, a.prev, a.entries)
  }

  lemma AppendAbove(n: Node, c: nat, a: AppendArgs)
    requires c <= |n.log| && Sensible(n.log, a) && (c == 0 || a.prev > c)
    ensures var v := HandleAppend(n, a); HandleAppend(CutNode(n, c), a) == v.(node := CutNode(v.node, c))
  {
    AcceptsCut(n.log, c, a.prev, a.prevTerm);
    if Accepts(n.log, a.prev, a.prevTerm) {
      SpliceAbove(n.log, c, a.prev, a.entries);
    }
  }

  /** From the beginning, a compacted log is replaced by the message. */
  lemma AppendAtStart(n: Node, c: nat, a: AppendArgs)
    requires 1 <= c <= |n.log| && Sensible(n.log, a) && a.prev == 0 && a.entries != [] && a.term >= n.term
    ensures HandleAppend(CutNode(n, c), a).node.log == a.entries
    ensures var x := HandleAppend(n, a).node.log; x == (if Agrees(n.log, a.entries) then n.log else a.entries)
    ensures SameVerdict(HandleAppend(n, a), HandleAppend(CutNode(n, c), a), c) <==>
              !(Agrees(n.log, a.entries) && |a.entries| < |n.log|)
  {
    var v, v' := HandleAppend(n, a), HandleAppend(CutNode(n, c), a);
    assert Cut(n.log, c)[..0] + a.entries == a.entries && n.log[..0] + a.entries == a.entries;
    SpliceFull(n.log, 0, a.entries);
    if !(Agrees(n.log, a.entries) && |a.entries| < |n.log|) {
      assert v.node.log == a.entries;
      assert Cut(a.entries, 0) == a.entries;
      assert v' == v.(node := CutNode(v.node, 0));
    } else {
      assert |v'.node.log| != |v.node.log|;
    }
  }

  lemma AppendInGap(n: Node, c: nat, a: AppendArgs)
    requires 1 <= a.prev <= c <= |n.log| && Sensible(n.log, a)
    ensures SameVerdict(HandleAppend(n, a), HandleAppend(CutNode(n, c), a), c) <==>
              (a.term < n.term || !Accepts(n.log, a.prev, a.prevTerm))
  {
    AcceptsCut(n.log, c, a.prev, a.prevTerm);
    var v, v' := HandleAppend(n, a), HandleAppend(CutNode(n, c), a);
    if a.term < n.term || !Accepts(n.log, a.prev, a.prevTerm) {
      assert v' == v.(node := CutNode(v.node, c));
    } else {
      assert v'.ok != v.ok;
    }
  }

  /** Exactly when a compacted follower handles AppendEntries as a full one. */
  lemma AppendSameIff(n: Node, c: nat, a: AppendArgs)
    requires c <= |n.log| && Sensible(n.log, a)
    ensures SameVerdict(HandleAppend(n, a), HandleAppend(CutNode(n, c), a), c) <==>
              (a.term < n.term || !Mishandled(n.log, c, a))
  {
    var v, v' := HandleAppend(n, a), HandleAppend(CutNode(n, c), a);
    if c == 0 || a.prev > c {
      AppendAbove(n, c, a);
      assert v' == v.(node := CutNode(v.node, c));
    } else if a.prev >= 1 {
      AppendInGap(n, c, a);
    } else if a.term < n.term || a.entries == [] {
      assert v' == v.(node := CutNode(v.node, c));
    } else {
      AppendAtStart(n, c, a);
    }
  }

  // ---------- the leader ----------

  /** What is missing is committed or older than the leader's term. */
  predicate OldBelow(n: Node, c: nat) {
    c <= |n.log| && forall k :: n.commit <= k < c ==> n.log[k].term < n.term
  }

  lemma {:induction false} ScanSame(cfg: Config, n: Node, c: nat, top: nat)
    requires OldBelow(n, c) && n.term >= 1
    ensures CommitScan(cfg, CutNode(n, c), top) == CommitScan(cfg, n, top)
  {
    if top > n.commit {
      assert Holders(cfg, CutNode(n, c), top) == Holders(cfg, n, top);
      assert Commits(cfg, CutNode(n, c), top) == Commits(cfg, n, top);
      ScanSame(cfg, n, c, top - 1);
    }
  }

  lemma ReplySame(cfg: Config, n: Node, c: nat, peer: NodeId, req: AppendArgs, reply: nat, ok: bool)
    requires n.role == LEADER ==> OldBelow(n, c) && n.term >= 1
    ensures HandleAppendReply(cfg, CutNode(n, c), peer, req, reply, ok) ==
              CutNode(HandleAppendReply(cfg, n, peer, req, reply, ok), c)
  {
    if n.role == LEADER && n.term == req.term && reply <= n.term && ok && req.entries != [] {
      var reached := Max(Lookup(n.matched, peer), req.entries[|req.entries| - 1].index);
      var m := n.(matched := n.matched[peer := reached], next := n.next[peer := reached + 1]);
      ScanSame(cfg, m, c, |m.log|);
      assert CutNode(m, c) == CutNode(n, c).(matched := m.matched, next := m.next);
    }
  }

  /** The thread sends a snapshot instead when the record before nextIndex reads as missing. */
  predicate SendsSnapshot(log: Log, prev: nat) {
    prev > 0 && TermAt(log, prev) == 0
  }

  /** A compacted leader sends either a snapshot or exactly what a full one would send, if and only if
      nextIndex is not 1. */
  lemma ServesIff(n: Node, c: nat, peer: NodeId, prev: nat)
    requires Live(n.log) && 1 <= c <= |n.log| && prev + 1 == Lookup(n.next, peer) && prev <= |n.log|
    ensures SendsSnapshot(Cut(n.log, c), prev) <==> 1 <= prev <= c
    ensures BuildAppend(CutNode(n, c), peer, prev) == BuildAppend(n, peer, prev) <==> prev > c
    ensures var same := BuildAppend(CutNode(n, c), peer, prev) == BuildAppend(n, peer, prev);
            SendsSnapshot(Cut(n.log, c), prev) || same <==> prev >= 1
  {
    var s, s' := Slice(n.log, prev + 1), Slice(Cut(n.log, c), prev + 1);
    if prev > c {
      assert s' == s;
    } else if prev == 0 {
      assert s'[0] == MISSING && s[0] == n.log[0];
    }
  }

  /** At nextIndex 1 the leader sends blank entries, and whatever the peer answers in the leader's term,
      nextIndex stays 1: that peer gets neither a snapshot nor an entry while this leadership lasts. */
  lemma StuckAtOne(cfg: Config, n: Node, c: nat, peer: NodeId, reply: nat, ok: bool)
    requires n.role == LEADER && BATCH <= c <= |n.log| && Lookup(n.next, peer) == 1
    requires Lookup(n.matched, peer) == 0 && reply <= n.term
    ensures var m := CutNode(n, c);
            var a := BuildAppend(m, peer, 0);
            var m' := HandleAppendReply(cfg, m, peer, a, reply, ok);
            && !SendsSnapshot(m.log, 0)
            && |a.entries| == BATCH && (forall k :: 0 <= k < BATCH ==> a.entries[k] == MISSING)
            && Lookup(m'.next, peer) == 1 && Lookup(m'.matched, peer) == 0
            && m'.role == LEADER && m'.term == m.term && m'.log == m.log
  {
    var m := CutNode(n, c);
    var a := BuildAppend(m, peer, 0);
    assert |a.entries| == BATCH && a.entries[BATCH - 1] == MISSING;
  }

  // ---------- in reachable states ----------

  /** Fetched entries are committed; a leader has applied only what is committed or older than its term. */
  predicate Fresh(h: History, n: Node) {
    && (n.batch != [] ==> n.applied + |n.batch| <= n.commit)
    && (n.role == LEADER && n.term in h.reigns ==> n.applied <= Max(n.commit, |h.reigns[n.term].start|))
  }

  ghost predicate AllFresh(s: State) {
    forall i {:trigger Fresh(s.h, s.ns[i])} :: i in s.ns ==> Fresh(s.h, s.ns[i])
  }

  /** Anything but the executor, a crash and a victory. */
  predicate Moves(n: Node, n': Node) {
    && n'.commit >= n.commit && n'.batch == n.batch && n'.applied == n.applied
    && (n'.role == LEADER ==> n.role == LEADER && n'.term == n.term)
  }

  lemma FreshMoves(h: History, h': History, n: Node, n': Node)
    requires Fresh(h, n) && Extends(h, h') && Moves(n, n') && (n.role == LEADER ==> n.term in h.reigns)
    ensures Fresh(h', n')
  {
    if n'.role == LEADER {
      assert ReignLe(h.reigns[n.term], h'.reigns[n.term]);
    }
  }

  lemma FreshCount(s: State, m: Msg, genesis: Bank)
    requires Inv(s, genesis) && Enabled(s, OnVoteRep(m)) && Fresh(s.h, s.ns[m.candidate])
    ensures Fresh(DoVoteRep(s, m).h, DoVoteRep(s, m).ns[m.candidate])
  {
    assert NodeOk(s.c, s.h, s.ns[m.candidate], genesis);
  }

  lemma FreshExecute(s: State, i: NodeId, genesis: Bank)
    requires Inv(s, genesis) && i in s.ns && Fresh(s.h, s.ns[i])
    ensures Fresh(s.h, ApplyNext(s.ns[i])) && Fresh(s.h, FetchBatch(s.ns[i]))
  {
    var n := s.ns[i];
    assert NodeOk(s.c, s.h, n, genesis);
    if n.batch != [] {
      IndexOf(s.c, s.h, n.log, n.applied);
    }
  }

  lemma AppendMoves(s: State, m: Msg, genesis: Bank)
    requires Inv(s, genesis) && Enabled(s, OnAppendReq(m))
    ensures Moves(s.ns[m.to], DoAppendReq(s, m).ns[m.to])
  {
    AppendForward(s, m, genesis);
  }

  lemma ReplyMoves(cfg: Config, n: Node, p: NodeId, a: AppendArgs, reply: nat, ok: bool)
    ensures Moves(n, HandleAppendReply(cfg, n, p, a, reply, ok))
  {
  }

  predicate Special(step: Step) { step.OnVoteRep? || step.Execute? || step.Fetch? || step.Crash? }

  lemma StepMoves(s: State, step: Step, i: NodeId, genesis: Bank)
    requires Inv(s, genesis) && Enabled(s, step) && i in s.ns && !Special(step)
    ensures i in Do(s, step).ns && Moves(s.ns[i], Do(s, step).ns[i])
  {
    match step
    case OnAppendReq(m) => AppendMoves(s, m, genesis);
    case OnAppendRep(k, tid, m) => ReplyMoves(s.c, s.ns[k], m.from, m.args, m.term, m.ok);
    case _ =>
  }

  /** The one node that a special step moves. */
  function Mover(step: Step): NodeId
    requires Special(step) && (step.OnVoteRep? ==> step.m.VoteRep?)
  {
    if step.OnVoteRep? then step.m.candidate else step.i
  }

  lemma FreshSpecial(s: State, step: Step, genesis: Bank)
    requires Inv(s, genesis) && Enabled(s, step) && Special(step) && Fresh(s.h, s.ns[Mover(step)])
    ensures Fresh(Do(s, step).h, Do(s, step).ns[Mover(step)])
  {
    match step
    case OnVoteRep(m) => FreshCount(s, m, genesis);
    case Execute(k) => FreshExecute(s, k, genesis);
    case Fetch(k) => FreshExecute(s, k, genesis);
    case Crash(k) =>
  }

  lemma OthersStay(s: State, step: Step, i: NodeId)
    requires Enabled(s, step) && Special(step) && i in s.ns && i != Mover(step)
    ensures i in Do(s, step).ns && Do(s, step).ns[i] == s.ns[i]
  {
  }

  lemma FreshStep(s: State, step: Step, i: NodeId, genesis: Bank)
    requires Inv(s, genesis) && Enabled(s, step) && i in s.ns && Fresh(s.h, s.ns[i])
    ensures i in Do(s, step).ns && Fresh(Do(s, step).h, Do(s, step).ns[i])
  {
    if Special(step) && i == Mover(step) {
      FreshSpecial(s, step, genesis);
    } else {
      var s' := Do(s, step);
      StepExtends(s, step, genesis);
      assert NodeOk(s.c, s.h, s.ns[i], genesis);
      if Special(step) {
        OthersStay(s, step, i);
      } else {
        StepMoves(s, step, i, genesis);
      }
      FreshMoves(s.h, s'.h, s.ns[i], s'.ns[i]);
    }
  }

  lemma NextFresh(s: State, s': State, genesis: Bank)
    requires Inv(s, genesis) && AllFresh(s) && Next(s, s') && s'.ns.Keys == s.ns.Keys
    ensures AllFresh(s')
  {
    var step :| Enabled(s, step) && s' == Do(s, step);
    forall i | i in s'.ns ensures Fresh(s'.h, s'.ns[i]) {
      assert Fresh(s.h, s.ns[i]);
      FreshStep(s, step, i, genesis);
    }
  }

  lemma {:induction false} RunFresh(ss: seq<State>, genesis: Bank, k: nat)
    requires Run(ss, genesis) && k < |ss|
    ensures AllFresh(ss[k])
  {
    if k > 0 {
      RunFresh(ss, genesis, k - 1);
      RunOk(ss, genesis, k - 1);
      RunOk(ss, genesis, k);
      RunExtends(ss, genesis, k - 1, k);
      RunNext(ss, genesis, k - 1);
      NextFresh(ss[k - 1], ss[k], genesis);
    }
  }

  lemma RootedLive(cfg: Config, h: History, x: Log)
    requires HistoryOk(cfg, h) && Rooted(h, x)
    ensures Live(x)
  {
    forall k | 0 <= k < |x| ensures x[k].term >= 1 {
      assert RootedAt(h, x, k);
      assert ReignOk(cfg, h, x[k].term);
    }
  }

  /** In every reachable state, a leader that had compacted up to c, not above its lastApplied, handles
      every reply as with its full log: the commit scan takes the same index. */
  lemma ReachableReplySame(ss: seq<State>, genesis: Bank, i: nat, l: NodeId, c: nat, peer: NodeId, req: AppendArgs,
                           reply: nat, ok: bool)
    requires Run(ss, genesis) && i < |ss| && l in ss[i].ns && c <= ss[i].ns[l].applied
    ensures var n := ss[i].ns[l];
            HandleAppendReply(ss[i].c, CutNode(n, c), peer, req, reply, ok) ==
            CutNode(HandleAppendReply(ss[i].c, n, peer, req, reply, ok), c)
  {
    var s, n := ss[i], ss[i].ns[l];
    RunOk(ss, genesis, i);
    RunFresh(ss, genesis, i);
    assert Fresh(s.h, n);
    assert NodeOk(s.c, s.h, n, genesis);
    if n.role == LEADER {
      LeaderFacts(s, l, genesis);
      assert ReignOk(s.c, s.h, n.term);
    }
    ReplySame(s.c, n, c, peer, req, reply, ok);
  }

  /** What a node that holds y, with records 1..c gone, can check of a message: it starts in the gap, and if it
      starts at the very beginning it ends before y does and agrees with the records left. */
  predicate Loses(y: Log, c: nat, a: AppendArgs) {
    && 1 <= c && a.prev <= c
    && (a.prev == 0 ==>
          && a.entries != [] && |a.entries| < |y|
          && forall k :: c <= k < |a.entries| ==> y[k].term == a.entries[k].term)
  }

  /** The leader of a message that is not stale holds all that the receiver has applied, so what was
      compacted away agrees with the message. */
  lemma GapAgrees(cfg: Config, h: History, n: Node, c: nat, a: AppendArgs, genesis: Bank)
    requires HistoryOk(cfg, h) && NodeOk(cfg, h, n, genesis) && ArgsOk(cfg, h, a)
    requires c <= n.applied && n.term <= a.term
    ensures 1 <= a.prev <= c ==> Accepts(n.log, a.prev, a.prevTerm)
    ensures a.prev == 0 ==> forall k :: 0 <= k < c && k < |a.entries| ==> n.log[k].term == a.entries[k].term
  {
    var x, g := n.log[..Settled(n)], h.reigns[a.term].log;
    SafeInReign(cfg, h, x, n.term, a.term);
    assert forall k :: 0 <= k < c ==> x[k] == g[k];
    assert a.prev == 0 ==> forall k :: 0 <= k < |a.entries| ==> a.entries[k] == g[k];
  }

  lemma MishandledLoses(cfg: Config, h: History, n: Node, c: nat, a: AppendArgs, genesis: Bank)
    requires HistoryOk(cfg, h) && NodeOk(cfg, h, n, genesis) && ArgsOk(cfg, h, a)
    requires c <= n.applied && n.term <= a.term
    ensures Mishandled(n.log, c, a) <==> Loses(Cut(n.log, c), c, a)
  {
    GapAgrees(cfg, h, n, c, a, genesis);
  }

  /** In every reachable state, a node that has compacted up to c, not above its lastApplied, handles a message
      in flight to it as with its full log, if and only if the message is stale or, by what the node still
      holds, loses nothing. */
  lemma ReachableAppendIff(ss: seq<State>, genesis: Bank, i: nat, m: Msg, c: nat)
    requires Run(ss, genesis) && i < |ss| && m in ss[i].net && m.AppendReq? && m.to in ss[i].ns
    requires c <= ss[i].ns[m.to].applied
    ensures var n, a := ss[i].ns[m.to], m.args; var compacted := CutNode(n, c);
            SameVerdict(HandleAppend(n, a), HandleAppend(compacted, a), c) <==>
            (a.term < compacted.term || !Loses(compacted.log, c, a))
  {
    var s, n, a := ss[i], ss[i].ns[m.to], m.args;
    RunOk(ss, genesis, i);
    assert NodeOk(s.c, s.h, n, genesis);
    assert MsgOk(s.c, s.ns, s.h, m);
    InFlightSensible(s.c, s.h, n.log, a);
    AppendSameIff(n, c, a);
    if n.term <= a.term {
      MishandledLoses(s.c, s.h, n, c, a, genesis);
    }
  }

  lemma InFlightSensible(cfg: Config, h: History, x: Log, a: AppendArgs)
    requires HistoryOk(cfg, h) && Rooted(h, x) && ArgsOk(cfg, h, a)
    ensures Sensible(x, a)
  {
    assert ReignOk(cfg, h, a.term);
    ReignRooted(cfg, h, a.term);
    RootedLive(cfg, h, x);
    RootedLive(cfg, h, h.reigns[a.term].log);
    forall k | 0 <= k < |a.entries| && a.prev + k < |x| && x[a.prev + k].term == a.entries[k].term
      ensures x[a.prev + k] == a.entries[k]
    {
      ArgsMatching(cfg, h, x, a, k);
      assert x[a.prev..a.prev + k + 1][k] == a.entries[..k + 1][k];
    }
  }
}
