/** Elections, votes and steps that raise a node's term keep the invariant. */
module ElectionSteps {
  import opened Quorum
  import opened Bank
  import opened NodeSpec
  import opened Cluster
  import opened Invariant
  import opened HistoryFacts
  import opened Frame
  import opened Steps

  // ---------- a higher term ----------

  /** n' is n in a later term; its role, vote and election state may be anything. */
  predicate Raised(n: Node, n': Node) {
    && n'.term > n.term
    && n' == n.(term := n'.term, role := n'.role, votedFor := n'.votedFor, granted := n'.granted)
  }

  lemma RaisedNode(c: Config, h: History, n: Node, n': Node, genesis: Bank)
    requires AcksOk(h) && NodeOk(c, h, n, genesis) && Raised(n, n') && RoleOk(c, h, n')
    ensures NodeOk(c, h, n', genesis)
  {
    forall t | t in h.reigns ensures RegalAt(h, n', t) {
      assert RegalAt(h, n, t);
    }
    forall t | (t, n'.id) in h.ballots ensures VoteAt(h, n', t) {
      assert VoteAt(h, n, t);
    }
    forall t, j: nat | t in h.reigns && j <= Ack(h, t, n'.id) ensures Kept(h, t, j, n'.log, n'.term) {
      assert Kept(h, t, j, n.log, n.term);
    }
    SafePrefix(c, h, n.log[..Settled(n)], n.log[..Settled(n)], n.term, n'.term);
    forall t | t in n'.workers ensures WorkerOk(n', n'.workers[t]) {
      assert WorkerOk(n, n.workers[t]);
    }
  }

  /** Stepping down into a later term. */
  lemma RaiseKeeps(s: State, i: NodeId, term: nat, genesis: Bank)
    requires Inv(s, genesis) && i in s.ns && term > s.ns[i].term
    ensures Inv(s.(ns := s.ns[i := BecomeFollower(s.ns[i], term)]), genesis)
  {
    assert NodeOk(s.c, s.h, s.ns[i], genesis);
    var n' := BecomeFollower(s.ns[i], term);
    RaisedNode(s.c, s.h, s.ns[i], n', genesis);
    SameHistory(s, s.(ns := s.ns[i := n']), i, genesis);
  }

  /** The in-term reset: a candidate that learns of the leader of its own term forgets its vote. It
      cannot be one of that leader's electors, since its vote was for itself. */
  lemma ResetKeeps(s: State, i: NodeId, genesis: Bank)
    requires Inv(s, genesis) && i in s.ns && s.ns[i].role == CANDIDATE && s.ns[i].term in s.h.reigns
    ensures Inv(s.(ns := s.ns[i := BecomeFollower(s.ns[i], s.ns[i].term)]), genesis)
  {
    var n := s.ns[i];
    var n' := BecomeFollower(n, n.term);
    var h := s.h;
    assert NodeOk(s.c, h, n, genesis);
    forall t | t in h.reigns ensures RegalAt(h, n', t) {
      assert RegalAt(h, n, t);
    }
    forall t | (t, n'.id) in h.ballots ensures VoteAt(h, n', t) {
      assert VoteAt(h, n, t);
    }
    forall t, j: nat | t in h.reigns && j <= Ack(h, t, n'.id) ensures Kept(h, t, j, n'.log, n'.term) {
      assert Kept(h, t, j, n.log, n.term);
    }
    forall t | t in n'.workers ensures WorkerOk(n', n'.workers[t]) {
      assert WorkerOk(n, n.workers[t]);
    }
    SameHistory(s, s.(ns := s.ns[i := n']), i, genesis);
  }

  // ---------- recording a ballot ----------

  lemma VoteExtends(h: History, t: nat, v: NodeId, b: Ballot)
    ensures Extends(h, Vote(h, t, v, b))
    ensures forall q :: q != v ==> Silent(h, Vote(h, t, v, b), q)
  {
  }

  /** What a new ballot must satisfy. */
  ghost predicate BallotFits(c: Config, h: History, t: nat, v: NodeId, b: Ballot)
    requires AcksOk(h)
  {
    && t >= 1 && v in c.nodes && b.candidate in c.nodes
    && (b.candidate != v ==>
          && (t, b.candidate) in h.ballots
          && UpToDate(LastTerm(h.ballots[(t, b.candidate)].log), |h.ballots[(t, b.candidate)].log|, b.log))
    && (forall k :: 0 <= k < |b.log| ==> b.log[k].term < t)
    && Rooted(h, b.log)
    && (forall u, j: nat {:trigger Kept(h, u, j, b.log, t - 1)} ::
          u in h.reigns && u <= t - 1 && j <= Ack(h, u, v) ==> Kept(h, u, j, b.log, t - 1))
  }

  lemma ReignMono(c: Config, h: History, h': History, t: nat)
    requires Extends(h, h') && t in h.reigns && ReignOk(c, h, t)
    requires h'.reigns[t] == h.reigns[t] && Ack(h', t, h.reigns[t].leader) == Ack(h, t, h.reigns[t].leader)
    ensures ReignOk(c, h', t)
  {
    RootedMono(h, h', h.reigns[t].start);
  }

  lemma BallotMono(c: Config, h: History, h': History, t: nat, v: NodeId)
    requires Extends(h, h') && (t, v) in h.ballots && BallotOk(c, h, t, v)
    ensures BallotOk(c, h', t, v)
  {
    RootedMono(h, h', h.ballots[(t, v)].log);
  }

  /** A ballot keeps its guarantee when its voter acknowledges nothing more in earlier terms. */
  lemma BallotKeptMono(h: History, h': History, t: nat, v: NodeId)
    requires Extends(h, h') && (t, v) in h.ballots && AcksOk(h) && AcksOk(h')
    requires BallotKept(h, t, v, t - 1)
    requires forall u :: u in h'.reigns && u < t && (u, v) in h'.acks ==>
               (u, v) in h.acks && h'.acks[(u, v)] == h.acks[(u, v)]
    ensures BallotKept(h', t, v, t - 1)
  {
    var x := h.ballots[(t, v)].log;
    forall u, j: nat {:trigger Kept(h', u, j, x, t - 1)} | u in h'.reigns && u <= t - 1 && j <= Ack(h', u, v)
      ensures Kept(h', u, j, x, t - 1)
    {
      if (u, v) in h'.acks {
        assert Kept(h, u, j, x, t - 1);
      } else {
        assert h'.reigns[u].log[..j] == [];
      }
    }
  }

  lemma NewBallot(c: Config, h: History, h': History, t: nat, v: NodeId, b: Ballot)
    requires AcksOk(h) && BallotFits(c, h, t, v, b)
    requires Extends(h, h') && h' == h.(ballots := h.ballots[(t, v) := b])
    ensures AcksOk(h') && BallotOk(c, h', t, v) && BallotKept(h', t, v, t - 1)
  {
    RootedMono(h, h', b.log);
    forall u, j: nat {:trigger Kept(h', u, j, b.log, t - 1)} | u in h'.reigns && u <= t - 1 && j <= Ack(h', u, v)
      ensures Kept(h', u, j, b.log, t - 1)
    {
      assert Kept(h, u, j, b.log, t - 1);
    }
  }

  lemma VoteHistory(c: Config, h: History, t: nat, v: NodeId, b: Ballot)
    requires HistoryOk(c, h) && (t !in h.reigns && (t, v) !in h.ballots ==> BallotFits(c, h, t, v, b))
    ensures HistoryOk(c, Vote(h, t, v, b))
  {
    var h' := Vote(h, t, v, b);
    if t !in h.reigns && (t, v) !in h.ballots {
      VoteExtends(h, t, v, b);
      forall u | u in h'.reigns ensures ReignOk(c, h', u) {
        assert ReignOk(c, h, u);
        ReignMono(c, h, h', u);
      }
      NewBallot(c, h, h', t, v, b);
      forall u, w | (u, w) in h'.ballots ensures BallotOk(c, h', u, w) && BallotKept(h', u, w, u - 1) {
        if (u, w) != (t, v) {
          assert BallotOk(c, h, u, w);
          BallotMono(c, h, h', u, w);
          BallotKeptMono(h, h', u, w);
        }
      }
    }
  }

  /** Node facts that do not mention ballots. */
  lemma SameReigns(c: Config, h: History, h': History, n: Node)
    requires Extends(h, h') && h'.reigns == h.reigns && h'.acks == h.acks && AcksOk(h)
    requires RegalOk(h, n) && LogOk(h, n) && AckOk(h, n) && SafeOk(c, h, n)
    ensures AcksOk(h') && RegalOk(h', n) && LogOk(h', n) && AckOk(h', n) && SafeOk(c, h', n)
  {
    forall t | t in h'.reigns ensures RegalAt(h', n, t) {
      assert RegalAt(h, n, t);
    }
    RootedMono(h, h', n.log);
    forall t, j: nat | t in h'.reigns && j <= Ack(h', t, n.id) ensures Kept(h', t, j, n.log, n.term) {
      assert Kept(h, t, j, n.log, n.term);
    }
    SafeMono(c, h, h', n.log[..Settled(n)], n.term);
  }

  lemma NoFutureBallot(h: History, n: Node, t: nat)
    requires VoteOk(h, n) && n.term < t
    ensures (t, n.id) !in h.ballots
  {
    assert (t, n.id) in h.ballots ==> VoteAt(h, n, t);
  }

  /** Ballots are not touched by what their voter acknowledges in its present term. */
  lemma NewAckBallots(c: Config, h: History, h': History, n: Node, t: nat)
    requires HistoryOk(c, h) && Extends(h, h') && AcksOk(h') && h'.ballots == h.ballots && VoteOk(h, n) && t == n.term
    requires forall u, q :: (u, q) in h'.acks && (u, q) != (t, n.id) ==>
               (u, q) in h.acks && h'.acks[(u, q)] == h.acks[(u, q)]
    ensures BallotsOk(c, h')
  {
    forall u, v {:trigger BallotOk(c, h', u, v)} | (u, v) in h'.ballots
      ensures BallotOk(c, h', u, v) && BallotKept(h', u, v, u - 1)
    {
      assert BallotOk(c, h, u, v);
      BallotMono(c, h, h', u, v);
      if v == n.id && u > t {
        NoFutureBallot(h, n, u);
      }
      BallotKeptMono(h, h', u, v);
    }
  }

  // ---------- starting an election ----------

  /** The candidate itself, in a term that already has a leader. */
  lemma LateCandidateOk(c: Config, h: History, n: Node, genesis: Bank)
    requires HistoryOk(c, h) && NodeOk(c, h, n, genesis) && n.id in c.nodes && n.term + 1 in h.reigns
    ensures NodeOk(c, h, StartElection(n), genesis)
  {
    assert RegalAt(h, n, n.term + 1);
    RaisedNode(c, h, n, StartElection(n), genesis);
  }

  /** Threads of a node that does not lead belong to earlier terms: they are left over. */
  lemma CandidateWorkers(c: Config, n: Node, n': Node)
    requires WorkersOk(c, n) && n.role != LEADER
    requires n'.id == n.id && n'.term == n.term && n'.busy == n.busy && n'.workers == n.workers
    ensures WorkersOk(c, n')
  {
  }

  lemma CandidateLog(c: Config, h: History, f: Node, n': Node, genesis: Bank)
    requires LogOk(h, f) && SafeOk(c, h, f) && ExecOk(f, genesis)
    requires n' == f.(role := n'.role, votedFor := n'.votedFor, granted := n'.granted)
    ensures LogOk(h, n') && SafeOk(c, h, n') && ExecOk(n', genesis)
  {
  }

  /** The candidate itself, in a term without leader, against the history with its ballot. */
  lemma FirstCandidateOk(c: Config, h: History, n: Node, genesis: Bank)
    requires HistoryOk(c, h) && NodeOk(c, h, n, genesis) && n.id in c.nodes && n.term + 1 !in h.reigns
    ensures var h' := Vote(h, n.term + 1, n.id, Ballot(n.id, n.log));
            AcksOk(h') && NodeOk(c, h', StartElection(n), genesis)
  {
    var n' := StartElection(n);
    var t := n'.term;
    var h' := Vote(h, t, n.id, Ballot(n.id, n.log));
    NoFutureBallot(h, n, t);
    VoteExtends(h, t, n.id, Ballot(n.id, n.log));
    var f := BecomeFollower(n, t);
    RaisedNode(c, h, n, f, genesis);
    SameReigns(c, h, h', f);
    CandidateRegal(h', f, n');
    CandidateVotes(h, h', n, n');
    CandidateWorkers(c, f, n');
    CandidateLog(c, h', f, n', genesis);
  }

  lemma CandidateVotes(h: History, h': History, n: Node, n': Node)
    requires VoteOk(h, n) && n' == StartElection(n)
    requires h' == h.(ballots := h.ballots[(n'.term, n.id) := Ballot(n.id, n.log)])
    ensures VoteOk(h', n')
  {
    forall u | (u, n'.id) in h'.ballots ensures VoteAt(h', n', u) {
      if u != n'.term {
        assert VoteAt(h, n, u);
      }
    }
  }

  lemma CandidateRegal(h: History, f: Node, n': Node)
    requires AcksOk(h) && RegalOk(h, f) && AckOk(h, f) && f.term !in h.reigns
    requires n' == f.(role := n'.role, votedFor := n'.votedFor, granted := n'.granted)
    ensures RegalOk(h, n') && AckOk(h, n')
  {
    forall t | t in h.reigns ensures RegalAt(h, n', t) {
      assert RegalAt(h, f, t);
    }
    forall t, j: nat | t in h.reigns && j <= Ack(h, t, n'.id) ensures Kept(h, t, j, n'.log, n'.term) {
      assert Kept(h, t, j, f.log, f.term);
    }
  }

  lemma ElectionKeeps(s: State, i: NodeId, genesis: Bank)
    requires Inv(s, genesis) && i in s.ns
    ensures Inv(DoElection(s, i), genesis)
  {
    var n := s.ns[i];
    var n' := StartElection(n);
    var b := Ballot(i, n.log);
    var s' := DoElection(s, i);
    assert NodeOk(s.c, s.h, n, genesis);
    VoteHistory(s.c, s.h, n'.term, i, b);
    VoteExtends(s.h, n'.term, i, b);
    if n'.term in s.h.reigns {
      LateCandidateOk(s.c, s.h, n, genesis);
    } else {
      FirstCandidateOk(s.c, s.h, n, genesis);
    }
    StableSameLog(s.c, s.h, s'.h, n, n');
    NewCandidate(s.c, s.h, n, genesis);
    OneNodeMoves(s, s', i, genesis);
  }

  /** The ballot of a fresh candidate in a term without leader is the one just recorded. */
  lemma NewCandidate(c: Config, h: History, n: Node, genesis: Bank)
    requires AcksOk(h) && NodeOk(c, h, n, genesis)
    ensures var t := n.term + 1; var h' := Vote(h, t, n.id, Ballot(n.id, n.log));
            t !in h'.reigns ==> (t, n.id) in h'.ballots && h'.ballots[(t, n.id)] == Ballot(n.id, n.log)
  {
    NoFutureBallot(h, n, n.term + 1);
  }
}
