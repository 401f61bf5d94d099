/** One Raft node on values: its state and what each critical section of the source does to it. */
module NodeSpec {
  import opened Quorum
  import opened Bank

  type Log = seq<Entry>

  datatype Role = FOLLOWER | CANDIDATE | LEADER

  const NO_VOTE: int := -1
  const BATCH: nat := 100

  datatype AppendArgs = AppendArgs(term: nat, leader: NodeId, prev: nat, prevTerm: nat, entries: Log, commit: nat)

  /** One detached replication thread: spawned with its busy flag set; past its first locked read
      (term and prevLogIndex known); blocked in its RPC; returned but not yet marked as done. */
  datatype Worker =
    | Spawned(peer: NodeId)
    | Primed(peer: NodeId, term: nat, prev: nat)
    | Waiting(peer: NodeId, req: AppendArgs)
    | Returned(peer: NodeId)

  /** `granted` holds the members whose votes the current election has counted: votesReceived is its
      size. `applied`, `bank` survive a restart together with `term`, `votedFor`, `log`; the rest is RAM. */
  datatype Node = Node(
    id: NodeId,
    term: nat,
    votedFor: int,
    log: Log,
    role: Role,
    granted: set<NodeId>,
    commit: nat,
    next: map<NodeId, nat>,
    matched: map<NodeId, nat>,
    busy: set<NodeId>,
    workers: map<nat, Worker>,
    applied: nat,
    bank: Bank,
    batch: Log)

  function Max(a: nat, b: nat): nat { if a < b then b else a }
  function Min(a: nat, b: nat): nat { if a < b then a else b }

  function LastTerm(log: Log): nat { if log == [] then 0 else log[|log| - 1].term }

  /** The term stored at a 1-based index, 0 where nothing is stored. */
  function TermAt(log: Log, index: nat): nat {
    if 1 <= index <= |log| then log[index - 1].term else 0
  }

  function Genesis(id: NodeId, bank: Bank): Node {
    Node(id, 0, NO_VOTE, [], FOLLOWER, {}, 0, map[], map[], {}, map[], 0, bank, [])
  }

  function Restart(n: Node): Node {
    n.(role := FOLLOWER, granted := {}, commit := 0, next := map[], matched := map[],
       busy := {}, workers := map[], batch := [])
  }

  // ---------- elections ----------

  function BecomeFollower(n: Node, term: nat): Node {
    n.(role := FOLLOWER, term := term, votedFor := NO_VOTE)
  }

  function StartElection(n: Node): Node {
    n.(role := CANDIDATE, term := n.term + 1, votedFor := n.id, granted := {n.id})
  }

  function BecomeLeader(c: Config, n: Node): Node {
    n.(role := LEADER,
       next := map p | p in c.Listed(n.id) :: |n.log| + 1,
       matched := map p | p in c.Listed(n.id) :: 0)
  }

  /** A candidate's log is up to date for a voter: later last term, or same last term and no shorter. */
  predicate UpToDate(lastTerm: nat, lastIndex: nat, log: Log) {
    lastTerm > LastTerm(log) || (lastTerm == LastTerm(log) && lastIndex >= |log|)
  }

  datatype Verdict = Verdict(node: Node, term: nat, ok: bool)

  function HandleVote(n: Node, term: nat, candidate: NodeId, lastIndex: nat, lastTerm: nat): Verdict {
    if term < n.term then Verdict(n, n.term, false)
    else
      var m := if term > n.term then BecomeFollower(n, term) else n;
      if (m.votedFor == NO_VOTE || m.votedFor == candidate) && UpToDate(lastTerm, lastIndex, m.log)
      then Verdict(m.(votedFor := candidate), m.term, true)
      else Verdict(m, m.term, false)
  }

  /** The reply of `from` to the RequestVote that this node sent for `reqTerm`. */
  function CountVote(c: Config, n: Node, from: NodeId, reqTerm: nat, replyTerm: nat, ok: bool): Node {
    if n.role != CANDIDATE || n.term != reqTerm then n
    else if replyTerm > n.term then BecomeFollower(n, replyTerm)
    else if ok then
      var m := n.(granted := n.granted + {from});
      if |m.granted| == c.Needed() then BecomeLeader(c, m) else m
    else n
  }

  // ---------- replication, leader side ----------

  function ClientAppend(n: Node, cmd: Command): Node {
    if n.role != LEADER then n
    else n.(log := n.log + [Entry(n.term, |n.log| + 1, cmd)])
  }

  function Lookup(m: map<NodeId, nat>, p: NodeId): nat { if p in m then m[p] else 0 }

  function Sub1(n: nat): nat { if n == 0 then 0 else n - 1 }

  /** The entries from 1-based index `from` on, at most BATCH of them. */
  function Slice(log: Log, from: nat): (s: Log)
    ensures |s| == if 1 <= from <= |log| then Min(BATCH, |log| - (from - 1)) else 0
    ensures s != [] ==> s == log[from - 1..from - 1 + |s|]
  {
    if 1 <= from <= |log| then log[from - 1..Min(|log|, from - 1 + BATCH)] else []
  }

  /** `prev` was read under an earlier lock than `nextIndex_`, which is read again here. */
  function BuildAppend(n: Node, peer: NodeId, prev: nat): AppendArgs {
    AppendArgs(n.term, n.id, prev, TermAt(n.log, prev), Slice(n.log, Lookup(n.next, peer)), n.commit)
  }

  function Holders(c: Config, n: Node, index: nat): set<NodeId> {
    set p | p in c.Listed(n.id) - {n.id} && Lookup(n.matched, p) >= index
  }

  /** The leader itself plus the peers whose matchIndex reaches `index`. */
  function Count(c: Config, n: Node, index: nat): nat {
    1 + |Holders(c, n, index)|
  }

  predicate Commits(c: Config, n: Node, index: nat) {
    TermAt(n.log, index) == n.term && Count(c, n, index) > (c.ListSize() + 1) / 2
  }

  /** The downward scan from `top`. */
  function CommitScan(c: Config, n: Node, top: nat): (r: nat)
    ensures r >= n.commit
  {
    if top <= n.commit then n.commit
    else if Commits(c, n, top) then top
    else CommitScan(c, n, top - 1)
  }

  function HandleAppendReply(c: Config, n: Node, peer: NodeId, req: AppendArgs, replyTerm: nat, success: bool): Node {
    if n.role != LEADER || n.term != req.term then n
    else if replyTerm > n.term then BecomeFollower(n, replyTerm)
    else if !success then
      if Lookup(n.next, peer) > 1 then n.(next := n.next[peer := n.next[peer] - 1]) else n
    else if req.entries == [] then n
    else
      var last := req.entries[|req.entries| - 1].index;
      var reached := Max(Lookup(n.matched, peer), last);
      var m := n.(matched := n.matched[peer := reached], next := n.next[peer := reached + 1]);
      m.(commit := CommitScan(c, m, |m.log|))
  }

  // ---------- replication, follower side ----------

  /** The append loop: keep what agrees in term, and from the first disagreement on take the message. */
  function Splice(log: Log, prev: nat, entries: Log): Log
    requires prev <= |log|
    decreases |entries|
  {
    if entries == [] then log
    else if prev < |log| && log[prev].term == entries[0].term then Splice(log, prev + 1, entries[1..])
    else log[..prev] + entries
  }

  predicate Accepts(log: Log, prev: nat, prevTerm: nat) {
    prev == 0 || (prev <= |log| && log[prev - 1].term == prevTerm)
  }

  /** The term rules of handleAppendEntries: a newer term, and any non-follower, resets role and vote. */
  function Adopt(n: Node, term: nat): Node {
    if term > n.term || n.role != FOLLOWER then BecomeFollower(n, term) else n
  }

  function HandleAppend(n: Node, a: AppendArgs): Verdict {
    if a.term < n.term then Verdict(n, n.term, false)
    else
      var m := Adopt(n, a.term);
      if !Accepts(m.log, a.prev, a.prevTerm) then Verdict(m, m.term, false)
      else
        var log := Splice(m.log, a.prev, a.entries);
        var commit := if a.commit > m.commit then Min(a.commit, |log|) else m.commit;
        Verdict(m.(log := log, commit := commit), m.term, true)
  }

  // ---------- executor ----------

  /** Fetch the next committed entries, at most BATCH, when the previous batch is used up. */
  function FetchBatch(n: Node): Node {
    if n.batch == [] && n.applied < n.commit <= |n.log|
    then n.(batch := n.log[n.applied..Min(n.commit, n.applied + BATCH)])
    else n
  }

  /** Apply the first fetched entry; bank and lastApplied are written in one atomic batch. */
  function ApplyNext(n: Node): Node {
    if n.batch == [] then n
    else n.(bank := Apply(n.bank, n.batch[0]), applied := n.batch[0].index, batch := n.batch[1..])
  }
}
