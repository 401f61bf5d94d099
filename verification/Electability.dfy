/** The up-to-date comparison orders logs, and a node with a greatest log can always be elected. */
module Electability {
  import opened Quorum
  import opened Bank
  import opened NodeSpec
  import opened Cluster
  import opened Invariant
  import opened HistoryFacts
  import opened Safety
  import opened Runs

  /** The log x is up to date for a voter with the log y. */
  predicate AtLeast(x: Log, y: Log) { UpToDate(LastTerm(x), |x|, y) }

  lemma AtLeastTotal(x: Log, y: Log)
    ensures AtLeast(x, y) || AtLeast(y, x)
  {
  }

  lemma AtLeastTransitive(x: Log, y: Log, z: Log)
    requires AtLeast(x, y) && AtLeast(y, z)
    ensures AtLeast(x, z)
  {
  }

  predicate Rising(x: Log) {
    forall j, k :: 0 <= j <= k < |x| ==> x[j].term <= x[k].term
  }

  lemma AtLeastPrefix(x: Log, y: Log)
    requires y <= x && Rising(x)
    ensures AtLeast(x, y)
  {
    if y != [] {
      assert y[|y| - 1] == x[|y| - 1];
    }
  }

  /** Equal in the order only if equally long with the same last term: no two other logs are up to date for
      each other. */
  lemma AtLeastBoth(x: Log, y: Log)
    ensures AtLeast(x, y) && AtLeast(y, x) <==> |x| == |y| && LastTerm(x) == LastTerm(y)
  {
  }

  lemma ReachableRising(ss: seq<State>, genesis: Bank, i: nat, a: NodeId)
    requires Run(ss, genesis) && i < |ss| && a in ss[i].ns
    ensures Rising(ss[i].ns[a].log)
  {
    var s, x := ss[i], ss[i].ns[a].log;
    RunOk(ss, genesis, i);
    assert NodeOk(s.c, s.h, s.ns[a], genesis);
    forall j, k | 0 <= j <= k < |x| ensures x[j].term <= x[k].term {
      TermsRise(s.c, s.h, x, j, k);
    }
  }

  /** In every reachable state, a voter that is free in the request's term grants a candidate whose log
      extends its own. */
  lemma ExtensionGranted(ss: seq<State>, genesis: Bank, i: nat, m: Msg)
    requires Run(ss, genesis) && i < |ss| && Enabled(ss[i], OnVoteReq(m)) && m.candidate in ss[i].ns
    requires var n := ss[i].ns[m.to];
             m.term > n.term || (m.term == n.term && (n.votedFor == NO_VOTE || n.votedFor == m.candidate))
    requires var x := ss[i].ns[m.candidate].log;
             ss[i].ns[m.to].log <= x && m.lastIndex == |x| && m.lastTerm == LastTerm(x)
    ensures VoteRep(m.to, m.candidate, m.term, m.term, true) in Do(ss[i], OnVoteReq(m)).net
    ensures Do(ss[i], OnVoteReq(m)).ns[m.to].votedFor == m.candidate
  {
    ReachableRising(ss, genesis, i, m.candidate);
    AtLeastPrefix(ss[i].ns[m.candidate].log, ss[i].ns[m.to].log);
  }

  // ---------- a greatest log ----------

  /** w's log is up to date for every node. */
  predicate Greatest(s: State, w: NodeId) {
    w in s.ns && forall q :: q in s.ns ==> AtLeast(s.ns[w].log, s.ns[q].log)
  }

  lemma {:induction false} GreatestAmong(ns: map<NodeId, Node>, among: set<NodeId>) returns (w: NodeId)
    requires among != {} && among <= ns.Keys
    ensures w in among && forall q :: q in among ==> AtLeast(ns[w].log, ns[q].log)
    decreases |among|
  {
    var q :| q in among;
    if among == {q} {
      w := q;
    } else {
      w := GreatestAmong(ns, among - {q});
      AtLeastTotal(ns[w].log, ns[q].log);
      if !AtLeast(ns[w].log, ns[q].log) {
        forall p | p in among ensures AtLeast(ns[q].log, ns[p].log) {
          if p != q {
            AtLeastTransitive(ns[q].log, ns[w].log, ns[p].log);
          }
        }
        w := q;
      }
    }
  }

  predicate TermsBelow(ns: map<NodeId, Node>, among: set<NodeId>, t: nat)
    requires among <= ns.Keys
  {
    forall q :: q in among ==> ns[q].term < t
  }

  lemma {:induction false} TermBound(ns: map<NodeId, Node>, among: set<NodeId>) returns (t: nat)
    requires among <= ns.Keys
    ensures TermsBelow(ns, among, t)
    decreases |among|
  {
    if among == {} {
      t := 0;
    } else {
      var q :| q in among;
      t := TermBound(ns, among - {q});
      t := if ns[q].term < t then t else ns[q].term + 1;
    }
  }

  // ---------- standing until the term is high enough ----------

  function Stood(n: Node, t: nat): Node {
    n.(term := t, role := CANDIDATE, votedFor := n.id, granted := {n.id})
  }

  predicate Asked(s: State, w: NodeId, t: nat, x: Log) {
    forall p :: p in s.c.Peers(w) ==> VoteReq(p, w, t, |x|, LastTerm(x)) in s.net
  }

  lemma {:induction false} RunStands(ss: seq<State>, genesis: Bank, w: NodeId, t: nat)
      returns (r: seq<State>, s': State)
    requires Run(ss, genesis) && w in ss[|ss| - 1].ns && ss[|ss| - 1].ns[w].id == w && t > ss[|ss| - 1].ns[w].term
    ensures var s := ss[|ss| - 1];
            && Longer(ss, r, t - s.ns[w].term, genesis) && s' == r[|r| - 1] && s'.c == s.c
            && s'.ns == s.ns[w := Stood(s.ns[w], t)] && Asked(s', w, t, s.ns[w].log)
    decreases t
  {
    var s := ss[|ss| - 1];
    if t == s.ns[w].term + 1 {
      r := Extend(ss, genesis, Election(w));
      s' := r[|r| - 1];
    } else {
      var s1;
      r, s1 := RunStands(ss, genesis, w, t - 1);
      r := Extend(r, genesis, Election(w));
      s' := r[|r| - 1];
      assert s'.ns[w] == Stood(s.ns[w], t);
    }
  }

  // ---------- collecting votes ----------

  /** Not enough have voted, but enough are left. */
  predicate Short(c: Config, todo: set<NodeId>) {
    |c.nodes - todo| < c.Needed() <= |c.nodes|
  }

  predicate Within(s: State, q: NodeId, t: nat) { q in s.ns && s.ns[q].term <= t }

  /** q has been asked by w and will grant. */
  predicate Open(s: State, w: NodeId, t: nat, x: Log, q: NodeId) {
    && q in s.ns && s.ns[q].id == q && s.ns[q].term < t
    && AtLeast(x, s.ns[q].log) && VoteReq(q, w, t, |x|, LastTerm(x)) in s.net
  }

  /** w stands in term t with the log x; the nodes of `todo` have not been asked yet and will grant. */
  ghost predicate Campaigns(s: State, w: NodeId, t: nat, x: Log, todo: set<NodeId>) {
    && s.ns.Keys == s.c.nodes && w in s.ns && s.ns[w].id == w
    && s.ns[w].role == CANDIDATE && s.ns[w].term == t && s.ns[w].log == x
    && todo <= s.c.Peers(w) && s.ns[w].granted == s.c.nodes - todo && Short(s.c, todo)
    && (forall q {:trigger Within(s, q, t)} :: q in s.ns ==> Within(s, q, t))
    && (forall q {:trigger Open(s, w, t, x, q)} :: q in todo ==> Open(s, w, t, x, q))
  }

  /** What a new leader's tables say of p. */
  predicate NewIn(n: Node, p: NodeId) {
    Lookup(n.next, p) == |n.log| + 1 && Lookup(n.matched, p) == 0
  }

  /** w leads term t with the log x and the tables of a new leader, and nobody is in a later term. */
  predicate NewLeader(s: State, w: NodeId, t: nat, x: Log) {
    && s.ns.Keys == s.c.nodes && w in s.ns && s.ns[w].id == w
    && s.ns[w].role == LEADER && s.ns[w].term == t && s.ns[w].log == x
    && (forall q {:trigger Within(s, q, t)} :: q in s.ns ==> Within(s, q, t))
    && forall p {:trigger NewIn(s.ns[w], p)} :: p in s.c.Peers(w) ==> NewIn(s.ns[w], p)
  }

  /** n' has n's threads and commit index. */
  predicate SameThreads(n: Node, n': Node) {
    n'.busy == n.busy && n'.workers == n.workers && n'.commit == n.commit
  }

  lemma AskOne(s: State, w: NodeId, t: nat, x: Log, q: NodeId) returns (s1: State)
    requires Open(s, w, t, x, q)
    ensures var ask := OnVoteReq(VoteReq(q, w, t, |x|, LastTerm(x))); Enabled(s, ask) && s1 == Do(s, ask)
    ensures s1.c == s.c && s1.ns == s.ns[q := s.ns[q].(term := t, role := FOLLOWER, votedFor := w)]
    ensures VoteRep(q, w, t, t, true) in s1.net && s.net <= s1.net
  {
    s1 := Do(s, OnVoteReq(VoteReq(q, w, t, |x|, LastTerm(x))));
  }

  lemma CountOne(s: State, w: NodeId, t: nat, q: NodeId) returns (s': State)
    requires w in s.ns && s.ns[w].role == CANDIDATE && s.ns[w].term == t && s.ns[w].id == w && q !in s.ns[w].granted
    requires VoteRep(q, w, t, t, true) in s.net
    ensures var answer := OnVoteRep(VoteRep(q, w, t, t, true)); Enabled(s, answer) && s' == Do(s, answer)
    ensures var n := s.ns[w].(granted := s.ns[w].granted + {q});
            && s'.c == s.c && s'.net == s.net
            && s'.ns == s.ns[w := if |n.granted| == s.c.Needed() then BecomeLeader(s.c, n) else n]
  {
    s' := Do(s, OnVoteRep(VoteRep(q, w, t, t, true)));
  }

  lemma TodoShrinks(c: Config, todo: set<NodeId>, q: NodeId)
    requires q in todo && todo <= c.nodes && Short(c, todo)
    ensures c.nodes - todo + {q} == c.nodes - (todo - {q})
    ensures |c.nodes - (todo - {q})| == c.Needed() || Short(c, todo - {q})
  {
    assert |c.nodes - todo + {q}| == |c.nodes - todo| + 1;
  }

  lemma OneVote(s: State, w: NodeId, t: nat, x: Log, todo: set<NodeId>, q: NodeId) returns (s1: State, s2: State)
    requires Campaigns(s, w, t, x, todo) && q in todo
    ensures var ask, answer := OnVoteReq(VoteReq(q, w, t, |x|, LastTerm(x))), OnVoteRep(VoteRep(q, w, t, t, true));
            && Enabled(s, ask) && s1 == Do(s, ask) && Enabled(s1, answer) && s2 == Do(s1, answer)
    ensures s2.c == s.c && w in s2.ns && SameThreads(s.ns[w], s2.ns[w])
    ensures if s2.ns[w].role == LEADER then NewLeader(s2, w, t, x) else Campaigns(s2, w, t, x, todo - {q})
  {
    assert Open(s, w, t, x, q) && Within(s, w, t);
    s1 := AskOne(s, w, t, x, q);
    s2 := CountOne(s1, w, t, q);
    TodoShrinks(s.c, todo, q);
    forall p | p in s2.ns ensures Within(s2, p, t) {
      assert Within(s, p, t);
    }
    if s2.ns[w].role == LEADER {
      forall p | p in s.c.Peers(w) ensures NewIn(s2.ns[w], p) {
      }
    } else {
      forall p | p in todo - {q} ensures Open(s2, w, t, x, p) {
        assert Open(s, w, t, x, p);
      }
    }
  }

  lemma RunOneVote(ss: seq<State>, genesis: Bank, w: NodeId, t: nat, x: Log, todo: set<NodeId>, q: NodeId)
      returns (r: seq<State>, s': State)
    requires Run(ss, genesis) && Campaigns(ss[|ss| - 1], w, t, x, todo) && q in todo
    ensures Longer(ss, r, 2, genesis) && s' == r[|r| - 1] && s'.c == ss[|ss| - 1].c
    ensures w in s'.ns && SameThreads(ss[|ss| - 1].ns[w], s'.ns[w])
    ensures if s'.ns[w].role == LEADER then NewLeader(s', w, t, x) else Campaigns(s', w, t, x, todo - {q})
  {
    var s1;
    s1, s' := OneVote(ss[|ss| - 1], w, t, x, todo, q);
    r := Extend(ss, genesis, OnVoteReq(VoteReq(q, w, t, |x|, LastTerm(x))));
    r := Extend(r, genesis, OnVoteRep(VoteRep(q, w, t, t, true)));
  }

  lemma SomeoneLeft(s: State, w: NodeId, t: nat, x: Log, todo: set<NodeId>) returns (q: NodeId)
    requires Campaigns(s, w, t, x, todo)
    ensures q in todo
  {
    assert todo == {} ==> s.c.nodes - todo == s.c.nodes;
    q :| q in todo;
  }

  lemma {:induction false} RunCampaigns(ss: seq<State>, genesis: Bank, w: NodeId, t: nat, x: Log, todo: set<NodeId>)
      returns (n: nat, r: seq<State>, s': State)
    requires Run(ss, genesis) && Campaigns(ss[|ss| - 1], w, t, x, todo)
    ensures Longer(ss, r, n, genesis) && s' == r[|r| - 1] && s'.c == ss[|ss| - 1].c
    ensures NewLeader(s', w, t, x) && SameThreads(ss[|ss| - 1].ns[w], s'.ns[w])
    decreases |todo|
  {
    var q := SomeoneLeft(ss[|ss| - 1], w, t, x, todo);
    r, s' := RunOneVote(ss, genesis, w, t, x, todo, q);
    n := 2;
    if s'.ns[w].role != LEADER {
      var k;
      k, r, s' := RunCampaigns(r, genesis, w, t, x, todo - {q});
      n := n + k;
    }
  }

  lemma EnoughNodes(c: Config)
    requires |c.nodes| >= 2
    ensures 2 <= c.Needed() <= |c.nodes|
  {
  }

  lemma StoodCampaigns(s: State, s1: State, w: NodeId, t: nat)
    requires Greatest(s, w) && |s.c.nodes| >= 2 && Housed(s) && TermsBelow(s.ns, s.ns.Keys, t)
    requires s1.c == s.c && s1.ns == s.ns[w := Stood(s.ns[w], t)] && Asked(s1, w, t, s.ns[w].log)
    ensures Campaigns(s1, w, t, s.ns[w].log, s.c.Peers(w)) && SameThreads(s.ns[w], s1.ns[w])
  {
    EnoughNodes(s.c);
    assert s.c.nodes - s.c.Peers(w) == {w};
    forall q | q in s1.ns ensures Within(s1, q, t) {
    }
    forall q | q in s.c.Peers(w) ensures Open(s1, w, t, s.ns[w].log, q) {
    }
  }

  /** Every run of two nodes or more can be continued, by elections and votes alone, to one in which any
      given node with a greatest log leads a later term than any before, with that log. */
  lemma RunElects(ss: seq<State>, genesis: Bank, w: NodeId) returns (t: nat, n: nat, r: seq<State>, s': State)
    requires Run(ss, genesis) && Greatest(ss[|ss| - 1], w) && |ss[|ss| - 1].c.nodes| >= 2
    ensures Longer(ss, r, n, genesis) && s' == r[|r| - 1] && s'.c == ss[|ss| - 1].c
    ensures TermsBelow(ss[|ss| - 1].ns, ss[|ss| - 1].ns.Keys, t) && NewLeader(s', w, t, ss[|ss| - 1].ns[w].log)
    ensures SameThreads(ss[|ss| - 1].ns[w], s'.ns[w])
  {
    var s := ss[|ss| - 1];
    RunHoused(ss, genesis, |ss| - 1);
    t := TermBound(s.ns, s.ns.Keys);
    var s1;
    r, s1 := RunStands(ss, genesis, w, t);
    StoodCampaigns(s, s1, w, t);
    var k;
    k, r, s' := RunCampaigns(r, genesis, w, t, s.ns[w].log, s.c.Peers(w));
    n := t - s.ns[w].term + k;
  }

  /** And such a node there always is. */
  lemma SomeoneElectable(ss: seq<State>, genesis: Bank)
      returns (w: NodeId, t: nat, n: nat, r: seq<State>, s': State)
    requires Run(ss, genesis) && |ss[|ss| - 1].c.nodes| >= 2
    ensures Greatest(ss[|ss| - 1], w) && Longer(ss, r, n, genesis) && s' == r[|r| - 1]
    ensures TermsBelow(ss[|ss| - 1].ns, ss[|ss| - 1].ns.Keys, t) && NewLeader(s', w, t, ss[|ss| - 1].ns[w].log)
  {
    var s := ss[|ss| - 1];
    RunHoused(ss, genesis, |ss| - 1);
    w := GreatestAmong(s.ns, s.ns.Keys);
    t, n, r, s' := RunElects(ss, genesis, w);
  }
}
