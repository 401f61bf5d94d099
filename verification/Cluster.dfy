/** The cluster as a state machine: nodes, a network that loses, delays, reorders and redelivers,
    and a history used only to state invariants. */
module Cluster {
  import opened Quorum
  import opened Bank
  import opened NodeSpec

  /** A reply carries the request it answers, as the RPC does. */
  datatype Msg =
    | VoteReq(to: NodeId, candidate: NodeId, term: nat, lastIndex: nat, lastTerm: nat)
    | VoteRep(from: NodeId, candidate: NodeId, reqTerm: nat, term: nat, ok: bool)
    | AppendReq(to: NodeId, args: AppendArgs)
    | AppendRep(from: NodeId, args: AppendArgs, term: nat, ok: bool)

  /** A vote given before its term had a leader, with the voter's log at that moment. */
  datatype Ballot = Ballot(candidate: NodeId, log: Log)

  /** A leadership: who was elected by whom, the log it started with and that log as it grew. */
  datatype Reign = Reign(leader: NodeId, voters: set<NodeId>, start: Log, log: Log)

  /** `acks[(t, p)]` is how much of the log of term t's leader p has held while in term t. */
  datatype History = History(
    reigns: map<nat, Reign>,
    ballots: map<(nat, NodeId), Ballot>,
    acks: map<(nat, NodeId), nat>)

  datatype State = State(c: Config, ns: map<NodeId, Node>, net: set<Msg>, h: History)

  function Ack(h: History, t: nat, p: NodeId): nat {
    if (t, p) in h.acks then h.acks[(t, p)] else 0
  }

  // ---------- history updates ----------

  function Vote(h: History, t: nat, v: NodeId, b: Ballot): History {
    if t in h.reigns || (t, v) in h.ballots then h else h.(ballots := h.ballots[(t, v) := b])
  }

  function Crown(h: History, n: Node): History {
    h.(reigns := h.reigns[n.term := Reign(n.id, n.granted, n.log, n.log)],
       acks := h.acks[(n.term, n.id) := |n.log|])
  }

  function Grow(h: History, t: nat, log: Log): History
    requires t in h.reigns
  {
    h.(reigns := h.reigns[t := h.reigns[t].(log := log)],
       acks := h.acks[(t, h.reigns[t].leader) := |log|])
  }

  function Acknowledge(h: History, t: nat, p: NodeId, upTo: nat): History {
    h.(acks := h.acks[(t, p) := Max(Ack(h, t, p), upTo)])
  }

  // ---------- steps ----------

  /** The election timer fires. The timer tests the role under an earlier lock, so any role can get here. */
  function DoElection(s: State, i: NodeId): State
    requires i in s.ns
  {
    var n := StartElection(s.ns[i]);
    State(s.c, s.ns[i := n],
          s.net + set p | p in s.c.Peers(i) :: VoteReq(p, i, n.term, |n.log|, LastTerm(n.log)),
          Vote(s.h, n.term, i, Ballot(i, n.log)))
  }

  function DoVoteReq(s: State, m: Msg): State
    requires m.VoteReq? && m.to in s.ns
  {
    var n := s.ns[m.to];
    var v := HandleVote(n, m.term, m.candidate, m.lastIndex, m.lastTerm);
    State(s.c, s.ns[m.to := v.node],
          s.net + {VoteRep(m.to, m.candidate, m.term, v.term, v.ok)},
          if v.ok then Vote(s.h, m.term, m.to, Ballot(m.candidate, n.log)) else s.h)
  }

  function DoVoteRep(s: State, m: Msg): State
    requires m.VoteRep? && m.candidate in s.ns
  {
    var n := s.ns[m.candidate];
    var n' := CountVote(s.c, n, m.from, m.reqTerm, m.term, m.ok);
    State(s.c, s.ns[m.candidate := n'], s.net,
          if n.role != LEADER && n'.role == LEADER then Crown(s.h, n') else s.h)
  }

  function DoClient(s: State, i: NodeId, cmd: Command): State
    requires i in s.ns
  {
    var n := ClientAppend(s.ns[i], cmd);
    State(s.c, s.ns[i := n], s.net,
          if n.role == LEADER && n.term in s.h.reigns then Grow(s.h, n.term, n.log) else s.h)
  }

  /** The manager starts a thread for a peer that is not busy. Its target list may be stale, so the
      role is not looked at here. */
  function DoSpawn(s: State, i: NodeId, tid: nat, peer: NodeId): State
    requires i in s.ns
  {
    var n := s.ns[i];
    s.(ns := s.ns[i := n.(busy := n.busy + {peer}, workers := n.workers[tid := Spawned(peer)])])
  }

  /** First locked section of replicateToPeer. */
  function DoPrime(s: State, i: NodeId, tid: nat): State
    requires i in s.ns && tid in s.ns[i].workers
  {
    var n := s.ns[i];
    var p := n.workers[tid].peer;
    var w := if n.role == LEADER then Primed(p, n.term, Sub1(Lookup(n.next, p))) else Returned(p);
    s.(ns := s.ns[i := n.(workers := n.workers[tid := w])])
  }

  /** Second locked section, message building and sending. */
  function DoSend(s: State, i: NodeId, tid: nat): State
    requires i in s.ns && tid in s.ns[i].workers && s.ns[i].workers[tid].Primed?
  {
    var n := s.ns[i];
    var w := n.workers[tid];
    if n.role != LEADER then
      s.(ns := s.ns[i := n.(workers := n.workers[tid := Returned(w.peer)])])
    else
      var a := BuildAppend(n, w.peer, w.prev);
      s.(ns := s.ns[i := n.(workers := n.workers[tid := Waiting(w.peer, a)])],
         net := s.net + {AppendReq(w.peer, a)})
  }

  function DoAppendReq(s: State, m: Msg): State
    requires m.AppendReq? && m.to in s.ns
  {
    var v := HandleAppend(s.ns[m.to], m.args);
    State(s.c, s.ns[m.to := v.node],
          s.net + {AppendRep(m.to, m.args, v.term, v.ok)},
          if v.ok then Acknowledge(s.h, m.args.term, m.to, m.args.prev + |m.args.entries|) else s.h)
  }

  function DoAppendRep(s: State, i: NodeId, tid: nat, m: Msg): State
    requires m.AppendRep? && i in s.ns && tid in s.ns[i].workers && s.ns[i].workers[tid].Waiting?
  {
    var n := s.ns[i];
    var w := n.workers[tid];
    var n' := HandleAppendReply(s.c, n, w.peer, w.req, m.term, m.ok);
    s.(ns := s.ns[i := n'.(workers := n'.workers[tid := Returned(w.peer)])])
  }

  /** The RPC fails or reaches its deadline. */
  function DoTimeout(s: State, i: NodeId, tid: nat): State
    requires i in s.ns && tid in s.ns[i].workers
  {
    var n := s.ns[i];
    s.(ns := s.ns[i := n.(workers := n.workers[tid := Returned(n.workers[tid].peer)])])
  }

  /** The thread marks its peer as no longer busy and ends. */
  function DoFinish(s: State, i: NodeId, tid: nat): State
    requires i in s.ns && tid in s.ns[i].workers
  {
    var n := s.ns[i];
    s.(ns := s.ns[i := n.(busy := n.busy - {n.workers[tid].peer}, workers := n.workers - {tid})])
  }

  datatype Step =
    | Election(i: NodeId)
    | OnVoteReq(m: Msg)
    | OnVoteRep(m: Msg)
    | Client(i: NodeId, cmd: Command)
    | Spawn(i: NodeId, tid: nat, peer: NodeId)
    | Prime(i: NodeId, tid: nat)
    | Send(i: NodeId, tid: nat)
    | OnAppendReq(m: Msg)
    | OnAppendRep(i: NodeId, tid: nat, m: Msg)
    | Timeout(i: NodeId, tid: nat)
    | Finish(i: NodeId, tid: nat)
    | Fetch(i: NodeId)
    | Execute(i: NodeId)
    | Crash(i: NodeId)

  predicate HasWorker(s: State, i: NodeId, tid: nat) {
    i in s.ns && tid in s.ns[i].workers
  }

  /** The prevLogIndex that the thread read still is nextIndex - 1. */
  predicate Contiguous(n: Node, w: Worker)
    requires w.Primed?
  {
    w.prev + 1 == Lookup(n.next, w.peer)
  }

  predicate Enabled(s: State, step: Step) {
    match step
    case Election(i) => i in s.ns
    case OnVoteReq(m) => m in s.net && m.VoteReq? && m.to in s.ns
    case OnVoteRep(m) => m in s.net && m.VoteRep? && m.candidate in s.ns && m.from !in s.ns[m.candidate].granted
    case Client(i, cmd) => i in s.ns
    case Spawn(i, tid, peer) => i in s.ns && tid !in s.ns[i].workers && peer in s.c.Peers(i) && peer !in s.ns[i].busy
    case Prime(i, tid) => HasWorker(s, i, tid) && s.ns[i].workers[tid].Spawned?
    // Only contiguous messages: within one leadership every message is (Safety.SingleFlight), but a node that
    // lost and regained leadership between the two locked reads can build another (StaleRead.StaleReadBreaks).
    case Send(i, tid) => HasWorker(s, i, tid) && s.ns[i].workers[tid].Primed?
                         && (s.ns[i].role == LEADER ==> Contiguous(s.ns[i], s.ns[i].workers[tid]))
    case OnAppendReq(m) => m in s.net && m.AppendReq? && m.to in s.ns
    case OnAppendRep(i, tid, m) => m in s.net && m.AppendRep? && HasWorker(s, i, tid)
                                   && s.ns[i].workers[tid] == Waiting(m.from, m.args)
    case Timeout(i, tid) => HasWorker(s, i, tid) && s.ns[i].workers[tid].Waiting?
    case Finish(i, tid) => HasWorker(s, i, tid) && s.ns[i].workers[tid].Returned?
    case Fetch(i) => i in s.ns
    case Execute(i) => i in s.ns
    case Crash(i) => i in s.ns
  }

  function Do(s: State, step: Step): State
    requires Enabled(s, step)
  {
    match step
    case Election(i) => DoElection(s, i)
    case OnVoteReq(m) => DoVoteReq(s, m)
    case OnVoteRep(m) => DoVoteRep(s, m)
    case Client(i, cmd) => DoClient(s, i, cmd)
    case Spawn(i, tid, peer) => DoSpawn(s, i, tid, peer)
    case Prime(i, tid) => DoPrime(s, i, tid)
    case Send(i, tid) => DoSend(s, i, tid)
    case OnAppendReq(m) => DoAppendReq(s, m)
    case OnAppendRep(i, tid, m) => DoAppendRep(s, i, tid, m)
    case Timeout(i, tid) => DoTimeout(s, i, tid)
    case Finish(i, tid) => DoFinish(s, i, tid)
    case Fetch(i) => s.(ns := s.ns[i := FetchBatch(s.ns[i])])
    case Execute(i) => s.(ns := s.ns[i := ApplyNext(s.ns[i])])
    case Crash(i) => s.(ns := s.ns[i := Restart(s.ns[i])])
  }

  /** Every node boots with an empty log and the same genesis accounts. */
  predicate Init(s: State, genesis: Bank) {
    && s.c.nodes != {}
    && s.ns == (map i | i in s.c.nodes :: Genesis(i, genesis))
    && s.net == {}
    && s.h == History(map[], map[], map[])
  }

  ghost predicate Next(s: State, s': State) {
    exists step :: Enabled(s, step) && s' == Do(s, step)
  }

  /** A run: any number of steps from boot. */
  ghost predicate Run(ss: seq<State>, genesis: Bank) {
    && |ss| > 0
    && Init(ss[0], genesis)
    && forall k {:trigger Next(ss[k], ss[k + 1])} :: 0 <= k < |ss| - 1 ==> Next(ss[k], ss[k + 1])
  }
}
