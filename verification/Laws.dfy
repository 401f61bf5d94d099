/** What each kind of step does to the node that takes it, stated on the cluster before and after. */
module Laws {
  import opened Quorum
  import opened Bank
  import opened NodeSpec
  import opened Cluster
  import opened Invariant
  import opened HistoryFacts
  import opened Steps
  import opened ReplicationSteps
  import opened ReplySteps
  import opened Safety
  import opened CatchUp

  /** n became a follower of a later term without a vote, and nothing else. */
  predicate SteppedDown(n: Node, n': Node, term: nat) {
    term > n.term && n' == n.(term := term, role := FOLLOWER, votedFor := NO_VOTE)
  }

  /** Every node but i is as it was. */
  predicate OnlyMoves(s: State, s': State, i: NodeId) {
    i in s.ns && s'.c == s.c && s'.ns.Keys == s.ns.Keys && forall j :: j in s.ns && j != i ==> s'.ns[j] == s.ns[j]
  }

  // ---------- elections ----------

  /** Standing for election: a new term, one's own vote, and a request to every peer. */
  lemma ElectionLaw(s: State, i: NodeId)
    requires i in s.ns && s.ns[i].id == i
    ensures var s' := Do(s, Election(i)); var n, n' := s.ns[i], s'.ns[i];
            && OnlyMoves(s, s', i)
            && n' == n.(term := n.term + 1, role := CANDIDATE, votedFor := i, granted := {i})
            && forall p :: p in s.c.Peers(i) ==> VoteReq(p, i, n.term + 1, |n.log|, LastTerm(n.log)) in s'.net
  {
  }

  /** A request of an earlier term is refused and changes nothing. Otherwise the voter is in its term, votes
      if and only if it has no other vote there and the candidate's log is up to date, and says so. */
  lemma VoteRequestLaw(s: State, m: Msg)
    requires Enabled(s, OnVoteReq(m))
    ensures var s' := Do(s, OnVoteReq(m)); var n, n' := s.ns[m.to], s'.ns[m.to];
            var free := m.term > n.term || n.votedFor == NO_VOTE || n.votedFor == m.candidate;
            var grants := m.term >= n.term && free && UpToDate(m.lastTerm, m.lastIndex, n.log);
            && OnlyMoves(s, s', m.to) && n'.term == Max(n.term, m.term)
            && VoteRep(m.to, m.candidate, m.term, n'.term, grants) in s'.net
            && (grants ==> n'.votedFor == m.candidate)
            && (!grants && m.term <= n.term ==> n' == n)
            && (!grants && m.term > n.term ==> SteppedDown(n, n', m.term))
            && (m.term > n.term ==> n'.role == FOLLOWER) && (m.term <= n.term ==> n'.role == n.role)
  {
  }

  /** A candidate that hears an answer of its election: a later term makes it a follower; a granted vote is
      counted, and it leads if and only if that makes as many as are needed. */
  lemma VoteAnswerLaw(s: State, m: Msg)
    requires Enabled(s, OnVoteRep(m)) && s.ns[m.candidate].role == CANDIDATE && s.ns[m.candidate].term == m.reqTerm
    ensures var s' := Do(s, OnVoteRep(m)); var n, n' := s.ns[m.candidate], s'.ns[m.candidate];
            && OnlyMoves(s, s', m.candidate)
            && (m.term > n.term ==> SteppedDown(n, n', m.term))
            && (m.term <= n.term && !m.ok ==> n' == n)
            && (m.term <= n.term && m.ok ==>
                  && n'.granted == n.granted + {m.from} && |n'.granted| == |n.granted| + 1
                  && n'.term == n.term && n'.votedFor == n.votedFor && n'.log == n.log && n'.commit == n.commit
                  && (n'.role == LEADER <==> |n.granted| + 1 == s.c.Needed())
                  && (n'.role != LEADER ==> n' == n.(granted := n'.granted)))
  {
  }

  // ---------- replication ----------

  /** A leader's log grows by the command in its own term at the next index; nobody else takes commands. */
  lemma ClientLaw(s: State, i: NodeId, cmd: Command)
    requires i in s.ns && s.ns[i].id == i
    ensures var s' := Do(s, Client(i, cmd)); var n, n' := s.ns[i], s'.ns[i];
            && OnlyMoves(s, s', i)
            && (n.role != LEADER ==> n' == n)
            && (n.role == LEADER ==> n' == n.(log := n.log + [Entry(n.term, |n.log| + 1, cmd)]))
  {
  }

  /** A message announces its leader's term, commit index and the entries from nextIndex on, a hundred at most. */
  lemma SendLaw(s: State, i: NodeId, tid: nat)
    requires Enabled(s, Send(i, tid)) && s.ns[i].role == LEADER
    ensures var s' := Do(s, Send(i, tid)); var n, w := s.ns[i], s.ns[i].workers[tid];
            exists a :: AppendReq(w.peer, a) in s'.net && s'.ns[i].workers[tid] == Waiting(w.peer, a)
                        && a.term == n.term && a.leader == n.id && a.commit == n.commit
                        && a.prev + 1 == Lookup(n.next, w.peer) && a.prevTerm == TermAt(n.log, a.prev)
                        && (a.prev <= |n.log| ==>
                              && |a.entries| == Min(BATCH, |n.log| - a.prev)
                              && a.entries == n.log[a.prev..a.prev + |a.entries|])
  {
    var n, w := s.ns[i], s.ns[i].workers[tid];
    var a := BuildAppend(n, w.peer, w.prev);
    assert AppendReq(w.peer, a) in Do(s, Send(i, tid)).net;
  }

  /** A stale message is refused and changes nothing. Otherwise the receiver follows in its term and says
      whether its log meets the message at prevLogIndex; if so it holds what SpliceMeaning says, and has
      committed what the leader has, as far as its log goes. */
  lemma AppendLaw(s: State, m: Msg, genesis: Bank)
    requires Inv(s, genesis) && Enabled(s, OnAppendReq(m))
    ensures var s' := Do(s, OnAppendReq(m)); var n, n', a := s.ns[m.to], s'.ns[m.to], m.args;
            var meets := a.prev == 0 || (a.prev <= |n.log| && n.log[a.prev - 1].term == a.prevTerm);
            && OnlyMoves(s, s', m.to) && n'.term == Max(n.term, a.term)
            && AppendRep(m.to, a, n'.term, a.term >= n.term && meets) in s'.net
            && (a.term < n.term ==> n' == n)
            && (a.term >= n.term ==>
                  && n'.role == FOLLOWER
                  && n'.votedFor == (if a.term > n.term || n.role != FOLLOWER then NO_VOTE else n.votedFor)
                  && (!meets ==> n'.log == n.log && n'.commit == n.commit)
                  && (meets ==> n'.log == Splice(n.log, a.prev, a.entries)
                                && n'.commit == Max(n.commit, Min(a.commit, |n'.log|))))
  {
    FollowerStepKeepsCommit(s, m, genesis);
  }

  // ---------- the executor ----------

  /** With nothing fetched, the entries after lastApplied up to commitIndex are fetched, a hundred at most. */
  lemma FetchLaw(s: State, i: NodeId, genesis: Bank)
    requires Inv(s, genesis) && i in s.ns
    ensures var s' := Do(s, Fetch(i)); var n, n' := s.ns[i], s'.ns[i];
            && OnlyMoves(s, s', i) && n' == n.(batch := n'.batch)
            && (n.batch != [] ==> n' == n)
            && (n.batch == [] ==>
                  && |n'.batch| == Min(BATCH, if n.commit > n.applied then n.commit - n.applied else 0)
                  && forall k :: 0 <= k < |n'.batch| ==> n.applied + k < |n.log| && n'.batch[k] == n.log[n.applied + k])
  {
    assert NodeOk(s.c, s.h, s.ns[i], genesis);
  }

  // ---------- the leader's answers ----------

  /** The other members whose matchIndex reaches k. */
  function Backers(c: Config, n: Node, k: nat): set<NodeId> {
    set p | p in c.nodes - {n.id} && Lookup(n.matched, p) >= k
  }

  /** As many members as an election needs, the leader among them, hold the entry of the leader's term at k. */
  predicate Backed(c: Config, n: Node, k: nat) {
    1 <= k <= |n.log| && n.log[k - 1].term == n.term && 1 + |Backers(c, n, k)| >= c.Needed()
  }

  lemma BackedCommits(c: Config, n: Node, k: nat)
    requires n.id in c.nodes && k >= 1
    ensures Backed(c, n, k) <==> k <= |n.log| && Commits(c, n, k)
  {
    assert Backers(c, n, k) == Holders(c, n, k);
  }

  /** commit is the greatest index above the old one that is backed, or the old one if there is none. */
  ghost predicate CommitsBacked(c: Config, n: Node, n': Node) {
    && (n'.commit == n.commit || (n'.commit > n.commit && Backed(c, n', n'.commit)))
    && forall k :: n'.commit < k ==> !Backed(c, n', k)
  }

  lemma ScanBacked(c: Config, n: Node)
    requires n.id in c.nodes
    ensures CommitsBacked(c, n, n.(commit := CommitScan(c, n, |n.log|)))
  {
    var n' := n.(commit := CommitScan(c, n, |n.log|));
    ScanExact(c, n, |n.log|);
    forall k: nat ensures Backers(c, n', k) == Backers(c, n, k) {
    }
    forall k: nat | k >= 1 ensures Backed(c, n', k) <==> k <= |n.log| && Commits(c, n, k) {
      BackedCommits(c, n, k);
    }
  }

  /** What a leader does with an answer to a request of its term. */
  ghost predicate Heeded(c: Config, n: Node, n': Node, p: NodeId, a: AppendArgs, ok: bool) {
    && n' == n.(commit := n'.commit, matched := n'.matched, next := n'.next)
    && (forall q :: q != p ==> Lookup(n'.matched, q) == Lookup(n.matched, q) && Lookup(n'.next, q) == Lookup(n.next, q))
    && (!ok ==> n'.commit == n.commit && n'.matched == n.matched)
    && (!ok ==> Lookup(n'.next, p) == Max(1, Sub1(Lookup(n.next, p))))
    && (ok && a.entries == [] ==> n' == n)
    && (ok && a.entries != [] ==>
          && Lookup(n'.matched, p) == Max(Lookup(n.matched, p), a.prev + |a.entries|)
          && Lookup(n'.next, p) == Lookup(n'.matched, p) + 1
          && CommitsBacked(c, n, n'))
  }

  lemma AfterHeeded(c: Config, n: Node, p: NodeId, a: AppendArgs, ok: bool)
    requires n.role == LEADER && n.term == a.term && n.id in c.nodes && Lookup(n.next, p) >= 1
    requires a.entries != [] ==> a.entries[|a.entries| - 1].index == a.prev + |a.entries|
    ensures Heeded(c, n, After(c, n, p, a, ok), p, a, ok)
  {
    if ok && a.entries != [] {
      var m := Reached(n, p, a);
      ScanBacked(c, m);
      assert After(c, n, p, a, ok) == m.(commit := CommitScan(c, m, |m.log|));
    }
  }

  lemma AnswerHeeded(s: State, i: NodeId, tid: nat, m: Msg, genesis: Bank)
    requires Inv(s, genesis) && Heeds(s, i, tid, m)
    ensures Heeded(s.c, s.ns[i], After(s.c, s.ns[i], m.from, m.args, m.ok), m.from, m.args, m.ok)
  {
    var a := m.args;
    HeedsHears(s, i, tid, m, genesis);
    if a.entries != [] {
      assert a.entries[|a.entries| - 1] == s.h.reigns[a.term].log[a.prev + |a.entries| - 1];
    }
    AfterHeeded(s.c, s.ns[i], m.from, a, m.ok);
  }

  /** A leader that hears an answer to a request of its own term ends in the later of the two terms: a later
      one makes it a follower without a vote; otherwise it goes on leading and heeds the answer. */
  lemma AnswerLaw(s: State, i: NodeId, tid: nat, m: Msg, genesis: Bank)
    requires Inv(s, genesis) && Enabled(s, OnAppendRep(i, tid, m))
    requires s.ns[i].role == LEADER && s.ns[i].term == m.args.term
    ensures var s' := Do(s, OnAppendRep(i, tid, m)); var n, n' := s.ns[i], s'.ns[i].(workers := s.ns[i].workers);
            && OnlyMoves(s, s', i) && n'.term == Max(n.term, m.term)
            && (m.term > n.term ==> SteppedDown(n, n', m.term))
            && (m.term <= n.term ==> Heeded(s.c, n, n', m.from, m.args, m.ok))
  {
    if m.term <= s.ns[i].term {
      AnswerHeeded(s, i, tid, m, genesis);
    }
  }
}
