/** Handling RequestVote, counting votes and becoming leader keep the invariant. */
module VoteSteps {
  import opened Quorum
  import opened Bank
  import opened NodeSpec
  import opened Cluster
  import opened Invariant
  import opened HistoryFacts
  import opened Frame
  import opened Steps
  import opened ElectionSteps

  lemma MapPutTwice<K, V>(m: map<K, V>, k: K, a: V, b: V)
    ensures m[k := a][k := b] == m[k := b]
  {
  }

  /** Changing only the vote, role follower, of a node that may give it. */
  lemma RevotedNode(c: Config, h: History, n: Node, n': Node, genesis: Bank)
    requires AcksOk(h) && RegalOk(h, n) && LogOk(h, n) && AckOk(h, n) && SafeOk(c, h, n) && ExecOk(n, genesis)
    requires WorkersOk(c, n)
    requires n.role == FOLLOWER && n' == n.(votedFor := n'.votedFor)
    requires n.term in h.reigns && n.id in h.reigns[n.term].voters ==> n'.votedFor == n.votedFor
    requires VoteOk(h, n')
    ensures NodeOk(c, h, n', genesis)
  {
    forall t | t in h.reigns ensures RegalAt(h, n', t) {
      assert RegalAt(h, n, t);
    }
    forall t, j: nat | t in h.reigns && j <= Ack(h, t, n'.id) ensures Kept(h, t, j, n'.log, n'.term) {
      assert Kept(h, t, j, n.log, n.term);
    }
    forall w | w in n'.workers ensures WorkerOk(n', n'.workers[w]) {
      assert WorkerOk(n, n.workers[w]);
    }
  }

  /** Before its term has a leader, a node's log holds no entry of that term. */
  lemma NoOwnTerm(h: History, n: Node)
    requires LogOk(h, n) && n.term !in h.reigns
    ensures forall k :: 0 <= k < |n.log| ==> n.log[k].term < n.term
  {
    forall k | 0 <= k < |n.log| ensures n.log[k].term < n.term {
      assert RootedAt(h, n.log, k);
    }
  }

  lemma GivenBallotFits(c: Config, h: History, n: Node, cand: NodeId, genesis: Bank)
    requires HistoryOk(c, h) && NodeOk(c, h, n, genesis) && n.id in c.nodes && n.term !in h.reigns
    requires (n.term, cand) in h.ballots && cand != n.id && cand in c.nodes
    requires UpToDate(LastTerm(h.ballots[(n.term, cand)].log), |h.ballots[(n.term, cand)].log|, n.log)
    ensures BallotFits(c, h, n.term, n.id, Ballot(cand, n.log))
  {
    NoOwnTerm(h, n);
    assert BallotOk(c, h, n.term, cand);
    forall u, j: nat {:trigger Kept(h, u, j, n.log, n.term - 1)} | u in h.reigns && u <= n.term - 1 &&
          j <= Ack(h, u, n.id)
      ensures Kept(h, u, j, n.log, n.term - 1)
    {
      assert Kept(h, u, j, n.log, n.term);
    }
  }

  lemma GivenVoteOk(h: History, n: Node, n': Node, cand: NodeId)
    requires VoteOk(h, n) && n' == n.(votedFor := cand) && (n.votedFor == NO_VOTE || n.votedFor == cand)
    ensures VoteOk(Vote(h, n.term, n.id, Ballot(cand, n.log)), n')
  {
    var h' := Vote(h, n.term, n.id, Ballot(cand, n.log));
    forall u | (u, n'.id) in h'.ballots ensures VoteAt(h', n', u) {
      if (u, n.id) in h.ballots {
        assert VoteAt(h, n, u);
      }
    }
  }

  /** A follower in the request's own term grants its vote. */
  ghost predicate Grants(c: Config, h: History, n: Node, cand: NodeId, genesis: Bank) {
    && HistoryOk(c, h) && NodeOk(c, h, n, genesis) && n.id in c.nodes && n.role == FOLLOWER
    && cand in c.nodes && cand != n.id && (n.votedFor == NO_VOTE || n.votedFor == cand)
    && (n.term !in h.reigns ==>
          && (n.term, cand) in h.ballots
          && UpToDate(LastTerm(h.ballots[(n.term, cand)].log), |h.ballots[(n.term, cand)].log|, n.log))
  }

  function Granted(h: History, n: Node, cand: NodeId): History {
    Vote(h, n.term, n.id, Ballot(cand, n.log))
  }

  lemma GrantHistory(c: Config, h: History, n: Node, cand: NodeId, genesis: Bank)
    requires Grants(c, h, n, cand, genesis)
    ensures HistoryOk(c, Granted(h, n, cand))
  {
    if n.term !in h.reigns {
      GivenBallotFits(c, h, n, cand, genesis);
    }
    VoteHistory(c, h, n.term, n.id, Ballot(cand, n.log));
  }

  lemma GrantNode(c: Config, h: History, n: Node, cand: NodeId, genesis: Bank)
    requires Grants(c, h, n, cand, genesis)
    ensures AcksOk(Granted(h, n, cand)) && NodeOk(c, Granted(h, n, cand), n.(votedFor := cand), genesis)
  {
    if n.term in h.reigns {
      assert RegalAt(h, n, n.term);
    }
    VoteExtends(h, n.term, n.id, Ballot(cand, n.log));
    SameReigns(c, h, Granted(h, n, cand), n);
    GivenVoteOk(h, n, n.(votedFor := cand), cand);
    RevotedNode(c, Granted(h, n, cand), n, n.(votedFor := cand), genesis);
  }

  lemma RequestGrants(s: State, m: Msg, genesis: Bank)
    requires Inv(s, genesis) && Enabled(s, OnVoteReq(m)) && m.term == s.ns[m.to].term
    requires HandleVote(s.ns[m.to], m.term, m.candidate, m.lastIndex, m.lastTerm).ok
    ensures s.ns[m.to].id == m.to && Grants(s.c, s.h, s.ns[m.to], m.candidate, genesis)
  {
    assert NodeOk(s.c, s.h, s.ns[m.to], genesis);
    assert MsgOk(s.c, s.ns, s.h, m);
  }

  lemma GrantKeeps(s: State, m: Msg, genesis: Bank)
    requires Inv(s, genesis) && Enabled(s, OnVoteReq(m)) && m.term == s.ns[m.to].term
    requires HandleVote(s.ns[m.to], m.term, m.candidate, m.lastIndex, m.lastTerm).ok
    ensures Inv(DoVoteReq(s, m), genesis)
  {
    var n := s.ns[m.to];
    var s' := DoVoteReq(s, m);
    RequestGrants(s, m, genesis);
    GrantHistory(s.c, s.h, n, m.candidate, genesis);
    GrantNode(s.c, s.h, n, m.candidate, genesis);
    GrantedReply(s, m, genesis);
    VoteExtends(s.h, m.term, m.to, Ballot(m.candidate, n.log));
    StableSameLog(s.c, s.h, s'.h, n, s'.ns[m.to]);
    OneNodeMoves(s, s', m.to, genesis);
  }

  /** The reply that grants the vote: the elector of another leader never sends it. */
  lemma GrantedReply(s: State, m: Msg, genesis: Bank)
    requires Inv(s, genesis) && Enabled(s, OnVoteReq(m)) && m.term == s.ns[m.to].term
    requires HandleVote(s.ns[m.to], m.term, m.candidate, m.lastIndex, m.lastTerm).ok
    ensures MsgOk(s.c, DoVoteReq(s, m).ns, DoVoteReq(s, m).h, VoteRep(m.to, m.candidate, m.term, m.term, true))
  {
    var n := s.ns[m.to];
    assert NodeOk(s.c, s.h, n, genesis);
    assert MsgOk(s.c, s.ns, s.h, m);
    if m.term in s.h.reigns {
      assert RegalAt(s.h, n, m.term);
    } else if (m.term, m.to) in s.h.ballots {
      assert VoteAt(s.h, n, m.term);
    }
  }

  lemma DenyKeeps(s: State, m: Msg, genesis: Bank)
    requires Inv(s, genesis) && Enabled(s, OnVoteReq(m)) && m.term <= s.ns[m.to].term
    requires !HandleVote(s.ns[m.to], m.term, m.candidate, m.lastIndex, m.lastTerm).ok
    ensures Inv(DoVoteReq(s, m), genesis)
  {
    assert MsgOk(s.c, s.ns, s.h, m);
    var s' := DoVoteReq(s, m);
    assert s'.ns == s.ns;
  }

  lemma VoteReqInTerm(s: State, m: Msg, genesis: Bank)
    requires Inv(s, genesis) && Enabled(s, OnVoteReq(m)) && m.term <= s.ns[m.to].term
    ensures Inv(DoVoteReq(s, m), genesis)
  {
    if HandleVote(s.ns[m.to], m.term, m.candidate, m.lastIndex, m.lastTerm).ok {
      GrantKeeps(s, m, genesis);
    } else {
      DenyKeeps(s, m, genesis);
    }
  }

  lemma VoteReqKeeps(s: State, m: Msg, genesis: Bank)
    requires Inv(s, genesis) && Enabled(s, OnVoteReq(m))
    ensures Inv(DoVoteReq(s, m), genesis)
  {
    var n := s.ns[m.to];
    assert NodeOk(s.c, s.h, n, genesis);
    if m.term > n.term {
      var s1 := s.(ns := s.ns[m.to := BecomeFollower(n, m.term)]);
      RaiseKeeps(s, m.to, m.term, genesis);
      VoteReqInTerm(s1, m, genesis);
      MapPutTwice(s.ns, m.to, s1.ns[m.to], DoVoteReq(s, m).ns[m.to]);
      assert DoVoteReq(s1, m) == DoVoteReq(s, m);
    } else {
      VoteReqInTerm(s, m, genesis);
    }
  }

  // ---------- counting ----------

  predicate Counts(s: State, m: Msg) {
    && Enabled(s, OnVoteRep(m)) && m.ok
    && s.ns[m.candidate].role == CANDIDATE && s.ns[m.candidate].term == m.reqTerm && m.term <= m.reqTerm
  }

  function Tally(n: Node, from: NodeId): Node {
    n.(granted := n.granted + {from})
  }

  /** The candidate with one more vote is still in order. */
  lemma TallyOk(s: State, m: Msg, genesis: Bank)
    requires Inv(s, genesis) && Counts(s, m)
    ensures NodeOk(s.c, s.h, Tally(s.ns[m.candidate], m.from), genesis)
  {
    var n := s.ns[m.candidate];
    var n' := Tally(n, m.from);
    assert NodeOk(s.c, s.h, n, genesis);
    assert MsgOk(s.c, s.ns, s.h, m);
    assert RoleOk(s.c, s.h, n');
    forall t | t in s.h.reigns ensures RegalAt(s.h, n', t) {
      assert RegalAt(s.h, n, t);
    }
    forall t | (t, n'.id) in s.h.ballots ensures VoteAt(s.h, n', t) {
      assert VoteAt(s.h, n, t);
    }
    forall t, j: nat | t in s.h.reigns && j <= Ack(s.h, t, n'.id) ensures Kept(s.h, t, j, n'.log, n'.term) {
      assert Kept(s.h, t, j, n.log, n.term);
    }
    forall w | w in n'.workers ensures WorkerOk(n', n'.workers[w]) {
      assert WorkerOk(n, n.workers[w]);
    }
  }

  lemma TallyKeeps(s: State, m: Msg, genesis: Bank)
    requires Inv(s, genesis) && Counts(s, m)
    ensures Inv(s.(ns := s.ns[m.candidate := Tally(s.ns[m.candidate], m.from)]), genesis)
  {
    var n := s.ns[m.candidate];
    TallyOk(s, m, genesis);
    assert NodeOk(s.c, s.h, n, genesis);
    SameHistory(s, s.(ns := s.ns[m.candidate := Tally(n, m.from)]), m.candidate, genesis);
  }

  // ---------- becoming leader ----------

  /** The candidate n has reached the threshold. */
  ghost predicate Wins(c: Config, h: History, n: Node, genesis: Bank) {
    HistoryOk(c, h) && NodeOk(c, h, n, genesis) && n.id in c.nodes && n.role == CANDIDATE && |n.granted| >= c.Needed()
  }

  lemma FirstOfTerm(c: Config, h: History, n: Node, genesis: Bank)
    requires Wins(c, h, n, genesis)
    ensures n.term !in h.reigns && n.term >= 1
  {
    if n.term in h.reigns {
      ElectionSafety(c, h, n);
    } else {
      assert BallotOk(c, h, n.term, n.id);
    }
  }

  lemma CrownExtends(c: Config, h: History, n: Node, genesis: Bank)
    requires Wins(c, h, n, genesis)
    ensures Extends(h, Crown(h, n)) && AcksOk(Crown(h, n))
    ensures forall q :: q != n.id ==> Silent(h, Crown(h, n), q)
  {
    FirstOfTerm(c, h, n, genesis);
    assert (n.term, n.id) !in h.acks;
  }

  lemma CrownReign(c: Config, h: History, n: Node, genesis: Bank)
    requires Wins(c, h, n, genesis)
    ensures ReignOk(c, Crown(h, n), n.term)
  {
    FirstOfTerm(c, h, n, genesis);
    CrownExtends(c, h, n, genesis);
    NoOwnTerm(h, n);
    RootedMono(h, Crown(h, n), n.log);
    forall k | 0 <= k < |n.log| ensures n.log[k].index == k + 1 {
      IndexOf(c, h, n.log, k);
    }
  }

  lemma CrownReigns(c: Config, h: History, n: Node, genesis: Bank)
    requires Wins(c, h, n, genesis)
    ensures ReignsOk(c, Crown(h, n))
  {
    var h' := Crown(h, n);
    CrownExtends(c, h, n, genesis);
    CrownReign(c, h, n, genesis);
    forall t | t in h'.reigns ensures ReignOk(c, h', t) {
      if t != n.term {
        assert ReignOk(c, h, t);
        ReignMono(c, h, h', t);
      }
    }
  }

  lemma CrownHistory(c: Config, h: History, n: Node, genesis: Bank)
    requires Wins(c, h, n, genesis)
    ensures HistoryOk(c, Crown(h, n))
  {
    CrownExtends(c, h, n, genesis);
    CrownReigns(c, h, n, genesis);
    NewAckBallots(c, h, Crown(h, n), n, n.term);
  }

  lemma CrownAck(c: Config, h: History, n: Node, genesis: Bank)
    requires Wins(c, h, n, genesis)
    ensures AcksOk(Crown(h, n)) && AckOk(Crown(h, n), BecomeLeader(c, n))
  {
    var h', n' := Crown(h, n), BecomeLeader(c, n);
    FirstOfTerm(c, h, n, genesis);
    CrownExtends(c, h, n, genesis);
    forall t, j: nat | t in h'.reigns && j <= Ack(h', t, n'.id) ensures Kept(h', t, j, n'.log, n'.term) {
      if t != n.term {
        assert Kept(h, t, j, n.log, n.term);
      }
    }
  }

  lemma CrownRegal(c: Config, h: History, n: Node, genesis: Bank)
    requires Wins(c, h, n, genesis)
    ensures RegalOk(Crown(h, n), BecomeLeader(c, n)) && VoteOk(Crown(h, n), BecomeLeader(c, n))
  {
    var h', n' := Crown(h, n), BecomeLeader(c, n);
    FirstOfTerm(c, h, n, genesis);
    forall t | t in h'.reigns ensures RegalAt(h', n', t) {
      if t != n.term {
        assert RegalAt(h, n, t);
      }
    }
    forall t | (t, n'.id) in h'.ballots ensures VoteAt(h', n', t) {
      assert VoteAt(h, n, t);
    }
  }

  lemma CrownLog(c: Config, h: History, n: Node, genesis: Bank)
    requires Wins(c, h, n, genesis)
    ensures LogOk(Crown(h, n), BecomeLeader(c, n)) && SafeOk(c, Crown(h, n), BecomeLeader(c, n))
  {
    CrownExtends(c, h, n, genesis);
    RootedMono(h, Crown(h, n), n.log);
    SafeMono(c, h, Crown(h, n), n.log[..Settled(n)], n.term);
  }

  lemma CrownNode(c: Config, h: History, n: Node, genesis: Bank)
    requires Wins(c, h, n, genesis)
    ensures AcksOk(Crown(h, n)) && NodeOk(c, Crown(h, n), BecomeLeader(c, n), genesis)
  {
    CrownAck(c, h, n, genesis);
    CrownRegal(c, h, n, genesis);
    CrownLog(c, h, n, genesis);
  }

  /** A new leader's tables: every follower's nextIndex starts just past its log. */
  lemma CrownProgress(c: Config, h: History, n: Node, p: Node, genesis: Bank)
    requires Wins(c, h, n, genesis) && p.id in c.nodes && p.id != n.id
    ensures ProgressOk(Crown(h, n), BecomeLeader(c, n), p)
  {
  }

  lemma CrownKeeps(s: State, i: NodeId, genesis: Bank)
    requires Inv(s, genesis) && i in s.ns && s.ns[i].id == i && Wins(s.c, s.h, s.ns[i], genesis)
    ensures Inv(s.(ns := s.ns[i := BecomeLeader(s.c, s.ns[i])], h := Crown(s.h, s.ns[i])), genesis)
  {
    var n := s.ns[i];
    var n' := BecomeLeader(s.c, n);
    var s' := s.(ns := s.ns[i := n'], h := Crown(s.h, n));
    CrownExtends(s.c, s.h, n, genesis);
    CrownHistory(s.c, s.h, n, genesis);
    CrownNode(s.c, s.h, n, genesis);
    StableSameLog(s.c, s.h, s'.h, n, n');
    forall p | p in s.ns && p != i ensures ProgressOk(s'.h, n', s.ns[p]) {
      assert NodeOk(s.c, s.h, s.ns[p], genesis);
      CrownProgress(s.c, s.h, n, s.ns[p], genesis);
    }
    OneNodeMoves(s, s', i, genesis);
  }

  lemma CountKeeps(s: State, m: Msg, genesis: Bank)
    requires Inv(s, genesis) && Counts(s, m)
    ensures Inv(DoVoteRep(s, m), genesis)
  {
    var i := m.candidate;
    var n := Tally(s.ns[i], m.from);
    var s1 := s.(ns := s.ns[i := n]);
    assert NodeOk(s.c, s.h, s.ns[i], genesis);
    TallyKeeps(s, m, genesis);
    if |n.granted| == s.c.Needed() {
      assert NodeOk(s1.c, s1.h, s1.ns[i], genesis);
      CrownKeeps(s1, i, genesis);
      MapPutTwice(s.ns, i, n, BecomeLeader(s.c, n));
      assert Crown(s1.h, n) == Crown(s.h, BecomeLeader(s.c, n));
      assert DoVoteRep(s, m) == s1.(ns := s1.ns[i := BecomeLeader(s.c, n)], h := Crown(s1.h, n));
    } else {
      assert DoVoteRep(s, m) == s1;
    }
  }

  lemma VoteRepKeeps(s: State, m: Msg, genesis: Bank)
    requires Inv(s, genesis) && Enabled(s, OnVoteRep(m))
    ensures Inv(DoVoteRep(s, m), genesis)
  {
    var i := m.candidate;
    var n := s.ns[i];
    if Counts(s, m) {
      CountKeeps(s, m, genesis);
    } else if n.role == CANDIDATE && n.term == m.reqTerm && m.term > n.term {
      RaiseKeeps(s, i, m.term, genesis);
    } else {
      assert s.ns[i := n] == s.ns;
      assert DoVoteRep(s, m) == s;
    }
  }
}
