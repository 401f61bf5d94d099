/** The inductive invariant of the cluster. */
module Invariant {
  import opened Quorum
  import opened Bank
  import opened NodeSpec
  import opened Cluster

  // ---------- logs against the history ----------

  /** The entry at k was created by the leader of its term, and everything before it is that leader's too. */
  predicate RootedAt(h: History, x: Log, k: nat)
    requires k < |x|
  {
    && x[k].term in h.reigns
    && k < |h.reigns[x[k].term].log|
    && x[..k + 1] == h.reigns[x[k].term].log[..k + 1]
  }

  ghost predicate Rooted(h: History, x: Log) {
    forall k :: 0 <= k < |x| ==> RootedAt(h, x, k)
  }

  /** If every leader of the terms in (t, hi] started with the first j entries of term t's leader, x has them. */
  ghost predicate Kept(h: History, t: nat, j: nat, x: Log, hi: int)
    requires t in h.reigns && j <= |h.reigns[t].log|
  {
    (forall u :: u in h.reigns && t < u <= hi ==> h.reigns[t].log[..j] <= h.reigns[u].start)
    ==> h.reigns[t].log[..j] <= x
  }

  function Ackers(c: Config, h: History, t: nat, k: nat): set<NodeId> {
    set q | q in c.nodes && Ack(h, t, q) >= k
  }

  /** Index k is committed in term t: an entry of that term which a quorum has held in that term. */
  predicate Committed(c: Config, h: History, t: nat, k: nat) {
    && t in h.reigns
    && 1 <= k <= |h.reigns[t].log|
    && h.reigns[t].log[k - 1].term == t
    && |Ackers(c, h, t, k)| >= c.Needed()
  }

  /** x lies inside what was committed in some term up to hi. */
  ghost predicate Safe(c: Config, h: History, x: Log, hi: nat) {
    x == [] || exists t: nat, k: nat :: t <= hi && Committed(c, h, t, k) && x <= h.reigns[t].log[..k]
  }

  /** a and b share no more than k entries from the start. */
  predicate ShareAtMost(a: Log, b: Log, k: nat) {
    k >= |a| || k >= |b| || a[..k + 1] != b[..k + 1]
  }

  /** The follower n either holds a prefix of the log of term t's leader, or parted from it at or below k. */
  predicate Floor(h: History, t: nat, n: Node, k: nat)
    requires t in h.reigns
  {
    && (n.term < t ==> k >= |h.reigns[t].start|)
    && (n.term == t ==> n.log <= h.reigns[t].log || ShareAtMost(n.log, h.reigns[t].log, k))
  }

  /** n has moved on from term t or holds a prefix of its leader's log. */
  predicate Synced(h: History, t: nat, n: Node)
    requires t in h.reigns
  {
    n.term > t || (n.term == t && n.log <= h.reigns[t].log)
  }

  // ---------- the history alone ----------

  ghost predicate ReignOk(c: Config, h: History, t: nat)
    requires t in h.reigns
  {
    var r := h.reigns[t];
    && t >= 1
    && r.leader in r.voters && r.voters <= c.nodes && |r.voters| >= c.Needed()
    && r.start <= r.log
    && (forall k :: 0 <= k < |r.start| ==> r.log[k].term < t)
    && (forall k :: |r.start| <= k < |r.log| ==> r.log[k].term == t)
    && (forall k :: 0 <= k < |r.log| ==> r.log[k].index == k + 1)
    && (forall v :: v in r.voters ==> (t, v) in h.ballots && h.ballots[(t, v)].candidate == r.leader)
    && h.ballots[(t, r.leader)].log == r.start
    && Ack(h, t, r.leader) == |r.log|
    && Rooted(h, r.start)
  }

  ghost predicate BallotOk(c: Config, h: History, t: nat, v: NodeId)
    requires (t, v) in h.ballots
  {
    var b := h.ballots[(t, v)];
    && t >= 1 && v in c.nodes
    && b.candidate in c.nodes
    && (t, b.candidate) in h.ballots
    && UpToDate(LastTerm(h.ballots[(t, b.candidate)].log), |h.ballots[(t, b.candidate)].log|, b.log)
    && (forall k :: 0 <= k < |b.log| ==> b.log[k].term < t)
    && Rooted(h, b.log)
  }

  /** What a voter had acknowledged in an earlier term was still in its log when it voted. */
  ghost predicate BallotKept(h: History, t: nat, v: NodeId, before: int)
    requires (t, v) in h.ballots
    requires AcksOk(h)
  {
    forall u, j: nat {:trigger Kept(h, u, j, h.ballots[(t, v)].log, before)} ::
      u in h.reigns && u <= before && j <= Ack(h, u, v) ==> Kept(h, u, j, h.ballots[(t, v)].log, before)
  }

  ghost predicate AcksOk(h: History) {
    forall t, p :: (t, p) in h.acks ==> t in h.reigns && h.acks[(t, p)] <= |h.reigns[t].log|
  }

  ghost predicate ReignsOk(c: Config, h: History) {
    forall t {:trigger ReignOk(c, h, t)} :: t in h.reigns ==> ReignOk(c, h, t)
  }

  ghost predicate BallotsOk(c: Config, h: History)
    requires AcksOk(h)
  {
    forall t, v {:trigger BallotOk(c, h, t, v)} :: (t, v) in h.ballots ==>
      BallotOk(c, h, t, v) && BallotKept(h, t, v, t - 1)
  }

  ghost predicate HistoryOk(c: Config, h: History) {
    AcksOk(h) && ReignsOk(c, h) && BallotsOk(c, h)
  }

  // ---------- one node against the history ----------

  predicate RoleOk(c: Config, h: History, n: Node) {
    && (n.role != FOLLOWER ==> n.votedFor == n.id)
    && (n.role == LEADER ==> n.term in h.reigns && h.reigns[n.term].leader == n.id)
    && (n.role == CANDIDATE ==>
          && n.id in n.granted && n.granted <= c.nodes
          && (n.term in h.reigns ==> h.reigns[n.term].leader != n.id && n.granted !! h.reigns[n.term].voters)
          && (n.term !in h.reigns ==>
                && (forall v :: v in n.granted ==> (n.term, v) in h.ballots && h.ballots[(n.term, v)].candidate == n.id)
                && h.ballots[(n.term, n.id)].log == n.log))
  }

  /** The leader of a term keeps its log while in it; an elector keeps its vote while in it. */
  predicate RegalAt(h: History, n: Node, t: nat)
    requires t in h.reigns
  {
    && (h.reigns[t].leader == n.id ==> n.term >= t && (n.term == t ==> n.log == h.reigns[t].log && n.role != CANDIDATE))
    && (n.id in h.reigns[t].voters ==> n.term >= t && (n.term == t ==> n.votedFor == h.reigns[t].leader))
  }

  ghost predicate RegalOk(h: History, n: Node) {
    forall t {:trigger RegalAt(h, n, t)} :: t in h.reigns ==> RegalAt(h, n, t)
  }

  /** A ballot of a term that has no leader yet is still the node's vote while it is in that term. */
  predicate VoteAt(h: History, n: Node, t: nat)
    requires (t, n.id) in h.ballots
  {
    n.term >= t && (t !in h.reigns && n.term == t ==> n.votedFor == h.ballots[(t, n.id)].candidate)
  }

  ghost predicate VoteOk(h: History, n: Node) {
    forall t {:trigger VoteAt(h, n, t)} :: (t, n.id) in h.ballots ==> VoteAt(h, n, t)
  }

  ghost predicate LogOk(h: History, n: Node) {
    && Rooted(h, n.log)
    && (forall k :: 0 <= k < |n.log| ==> n.log[k].term <= n.term)
  }

  ghost predicate AckOk(h: History, n: Node)
    requires AcksOk(h)
  {
    && (forall t :: (t, n.id) in h.acks ==> t <= n.term)
    && (forall t, j: nat {:trigger Kept(h, t, j, n.log, n.term)} :: t in h.reigns && j <= Ack(h, t, n.id) ==>
          Kept(h, t, j, n.log, n.term))
  }

  /** How much of the log is fixed for good: committed, or applied before a restart. */
  function Settled(n: Node): nat { Max(n.commit, n.applied) }

  ghost predicate SafeOk(c: Config, h: History, n: Node) {
    Settled(n) <= |n.log| && Safe(c, h, n.log[..Settled(n)], n.term)
  }

  predicate ExecOk(n: Node, genesis: Bank) {
    && n.applied + |n.batch| <= Settled(n) <= |n.log|
    && n.batch == n.log[n.applied..n.applied + |n.batch|]
    && n.bank == Fold(genesis, n.log[..n.applied])
  }

  predicate WorkerOk(n: Node, w: Worker) {
    && w.peer in n.busy
    && (w.Primed? ==> w.term <= n.term)
    && (w.Primed? && w.term == n.term ==> n.role == LEADER && w.prev + 1 == Lookup(n.next, w.peer))
    && (w.Waiting? ==> w.req.term <= n.term)
    && (w.Waiting? && w.req.term == n.term ==> n.role == LEADER && w.req.prev + 1 == Lookup(n.next, w.peer))
  }

  /** Single flight: a busy flag stands for at most one thread, and that thread's prevLogIndex is current. */
  ghost predicate WorkersOk(c: Config, n: Node) {
    && (forall t :: t in n.workers ==> n.workers[t].peer in c.Peers(n.id) && WorkerOk(n, n.workers[t]))
    && (forall t, u :: t in n.workers && u in n.workers && n.workers[t].peer == n.workers[u].peer ==> t == u)
  }

  ghost predicate NodeOk(c: Config, h: History, n: Node, genesis: Bank)
    requires AcksOk(h)
  {
    && RoleOk(c, h, n)
    && RegalOk(h, n)
    && VoteOk(h, n)
    && LogOk(h, n)
    && AckOk(h, n)
    && SafeOk(c, h, n)
    && ExecOk(n, genesis)
    && WorkersOk(c, n)
  }

  // ---------- leader against follower, and messages ----------

  predicate ProgressOk(h: History, n: Node, p: Node)
    requires n.term in h.reigns
  {
    && 1 <= Lookup(n.next, p.id) <= |n.log| + 1
    && Lookup(n.matched, p.id) <= Ack(h, n.term, p.id)
    && Floor(h, n.term, p, Lookup(n.next, p.id) - 1)
  }

  ghost predicate LeadOk(c: Config, ns: map<NodeId, Node>, h: History)
    requires ns.Keys == c.nodes
  {
    forall i, p {:trigger ProgressOk(h, ns[i], ns[p])} ::
      i in ns && p in ns && p != i && ns[i].role == LEADER && ns[i].term in h.reigns ==> ProgressOk(h, ns[i], ns[p])
  }

  /** An AppendEntries request is a slice of its leader's log; without entries it announces no commit beyond prev. */
  ghost predicate ArgsOk(c: Config, h: History, a: AppendArgs) {
    && a.term in h.reigns
    && var r := h.reigns[a.term];
    && a.leader == r.leader
    && a.prev + |a.entries| <= |r.log|
    && a.entries == r.log[a.prev..a.prev + |a.entries|]
    && a.prevTerm == TermAt(r.log, a.prev)
    && a.commit <= |r.log|
    && (a.entries == [] ==> a.commit <= a.prev)
    && Safe(c, h, r.log[..a.commit], a.term)
  }

  ghost predicate MsgOk(c: Config, ns: map<NodeId, Node>, h: History, m: Msg)
    requires ns.Keys == c.nodes
  {
    match m
    case VoteReq(to, cand, term, lastIndex, lastTerm) =>
      && to in ns && cand in ns && to != cand
      && (term !in h.reigns ==>
            && (term, cand) in h.ballots
            && lastIndex == |h.ballots[(term, cand)].log|
            && lastTerm == LastTerm(h.ballots[(term, cand)].log))
    case VoteRep(from, cand, reqTerm, term, ok) =>
      && from in ns && cand in ns
      && (ok && reqTerm !in h.reigns ==> (reqTerm, from) in h.ballots && h.ballots[(reqTerm, from)].candidate == cand)
      && (ok && reqTerm in h.reigns && h.reigns[reqTerm].leader != cand ==> from !in h.reigns[reqTerm].voters)
    case AppendReq(to, a) =>
      to in ns && ArgsOk(c, h, a) && to != a.leader && Floor(h, a.term, ns[to], a.prev)
    case AppendRep(from, a, term, ok) =>
      && from in ns && ArgsOk(c, h, a) && from != a.leader
      && (ok ==> Ack(h, a.term, from) >= a.prev + |a.entries| && (a.entries != [] ==> Synced(h, a.term, ns[from])))
      && (!ok && term <= a.term ==> a.prev >= 1 && ns[from].term >= a.term && Floor(h, a.term, ns[from], a.prev - 1))
  }

  ghost predicate NetOk(c: Config, ns: map<NodeId, Node>, h: History, net: set<Msg>)
    requires ns.Keys == c.nodes
  {
    forall m {:trigger MsgOk(c, ns, h, m)} :: m in net ==> MsgOk(c, ns, h, m)
  }

  ghost predicate NodesOk(c: Config, ns: map<NodeId, Node>, h: History, genesis: Bank)
    requires ns.Keys == c.nodes
    requires AcksOk(h)
  {
    forall i {:trigger NodeOk(c, h, ns[i], genesis)} :: i in ns ==> ns[i].id == i && NodeOk(c, h, ns[i], genesis)
  }

  ghost predicate Inv(s: State, genesis: Bank) {
    && s.ns.Keys == s.c.nodes
    && HistoryOk(s.c, s.h)
    && NodesOk(s.c, s.ns, s.h, genesis)
    && LeadOk(s.c, s.ns, s.h)
    && NetOk(s.c, s.ns, s.h, s.net)
  }
}
