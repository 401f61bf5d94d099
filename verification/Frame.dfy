/** What survives when the history grows and other nodes move. */
module Frame {
  import opened Quorum
  import opened Bank
  import opened NodeSpec
  import opened Cluster
  import opened Invariant
  import opened HistoryFacts

  predicate ReignLe(r: Reign, r': Reign) {
    r'.leader == r.leader && r'.voters == r.voters && r'.start == r.start && r.log <= r'.log
  }

  /** The history only ever grows. */
  ghost predicate Extends(h: History, h': History) {
    && (forall t :: t in h.reigns ==> t in h'.reigns && ReignLe(h.reigns[t], h'.reigns[t]))
    && (forall k :: k in h.acks ==> k in h'.acks && h.acks[k] <= h'.acks[k])
    && (forall k :: k in h.ballots ==> k in h'.ballots && h'.ballots[k] == h.ballots[k])
  }

  lemma RootedMono(h: History, h': History, x: Log)
    requires Extends(h, h') && Rooted(h, x)
    ensures Rooted(h', x)
  {
    forall k | 0 <= k < |x| ensures RootedAt(h', x, k) {
      assert RootedAt(h, x, k);
      var t := x[k].term;
      assert ReignLe(h.reigns[t], h'.reigns[t]);
    }
  }

  lemma CommittedMono(c: Config, h: History, h': History, t: nat, k: nat)
    requires Extends(h, h') && Committed(c, h, t, k)
    ensures Committed(c, h', t, k)
    ensures h'.reigns[t].log[..k] == h.reigns[t].log[..k]
  {
    assert ReignLe(h.reigns[t], h'.reigns[t]);
    forall q | q in Ackers(c, h, t, k) ensures q in Ackers(c, h', t, k) {
      assert (t, q) in h.acks;
    }
    SubsetSize(Ackers(c, h, t, k), Ackers(c, h', t, k));
  }

  lemma SafeMono(c: Config, h: History, h': History, x: Log, hi: nat)
    requires Extends(h, h') && Safe(c, h, x, hi)
    ensures Safe(c, h', x, hi)
  {
    if x != [] {
      var t: nat, k: nat :| t <= hi && Committed(c, h, t, k) && x <= h.reigns[t].log[..k];
      CommittedMono(c, h, h', t, k);
      assert t <= hi && Committed(c, h', t, k) && x <= h'.reigns[t].log[..k];
    }
  }

  // ---------- a node that does not move ----------

  /** The history learned nothing about member q, except that it helped to elect someone. */
  ghost predicate Silent(h: History, h': History, q: NodeId) {
    && (forall t :: (t, q) in h'.acks ==> (t, q) in h.acks && h'.acks[(t, q)] == h.acks[(t, q)])
    && (forall t :: (t, q) in h'.ballots ==> (t, q) in h.ballots)
    && (forall t :: t in h'.reigns && h'.reigns[t].leader == q ==> t in h.reigns && h'.reigns[t] == h.reigns[t])
  }

  lemma SilentRole(c: Config, h: History, h': History, n: Node)
    requires Extends(h, h') && Silent(h, h', n.id) && HistoryOk(c, h')
    requires RoleOk(c, h, n) && n.id in c.nodes
    ensures RoleOk(c, h', n)
  {
    if n.role == LEADER {
      assert ReignLe(h.reigns[n.term], h'.reigns[n.term]);
    }
    if n.role == CANDIDATE && n.term in h'.reigns {
      assert ReignOk(c, h', n.term);
      if n.term in h.reigns {
        assert ReignLe(h.reigns[n.term], h'.reigns[n.term]);
      } else {
        var r := h'.reigns[n.term];
        assert r.leader != n.id;
        forall v | v in n.granted ensures v !in r.voters {
          assert h'.ballots[(n.term, v)] == h.ballots[(n.term, v)];
        }
      }
    }
  }

  lemma SilentRegal(c: Config, h: History, h': History, n: Node)
    requires Extends(h, h') && Silent(h, h', n.id) && HistoryOk(c, h')
    requires RegalOk(h, n) && VoteOk(h, n)
    ensures RegalOk(h', n) && VoteOk(h', n)
  {
    forall t | t in h'.reigns ensures RegalAt(h', n, t) {
      if t in h.reigns {
        assert RegalAt(h, n, t);
        assert ReignLe(h.reigns[t], h'.reigns[t]);
      } else {
        assert ReignOk(c, h', t);
        if n.id in h'.reigns[t].voters {
          assert (t, n.id) in h'.ballots;
          assert VoteAt(h, n, t);
        }
      }
    }
    forall t | (t, n.id) in h'.ballots ensures VoteAt(h', n, t) {
      assert VoteAt(h, n, t);
    }
  }

  lemma SilentAck(h: History, h': History, n: Node)
    requires Extends(h, h') && Silent(h, h', n.id) && AcksOk(h) && AcksOk(h')
    requires AckOk(h, n)
    ensures AckOk(h', n)
  {
    forall t, j: nat | t in h'.reigns && j <= Ack(h', t, n.id) ensures Kept(h', t, j, n.log, n.term) {
      if (t, n.id) in h'.acks {
        assert Kept(h, t, j, n.log, n.term);
      } else {
        assert h'.reigns[t].log[..j] == [];
      }
    }
  }

  lemma SilentNode(c: Config, h: History, h': History, n: Node, genesis: Bank)
    requires Extends(h, h') && Silent(h, h', n.id) && HistoryOk(c, h) && HistoryOk(c, h')
    requires NodeOk(c, h, n, genesis) && n.id in c.nodes
    ensures NodeOk(c, h', n, genesis)
  {
    SilentRole(c, h, h', n);
    SilentRegal(c, h, h', n);
    RootedMono(h, h', n.log);
    SilentAck(h, h', n);
    SafeMono(c, h, h', n.log[..Settled(n)], n.term);
  }

  // ---------- messages and leaders ----------

  lemma ShareGrows(c: Config, h: History, h': History, t: nat, x: Log, k: nat)
    requires Extends(h, h') && t in h.reigns && ReignOk(c, h, t) && ReignOk(c, h', t) && Rooted(h, x)
    requires ShareAtMost(x, h.reigns[t].log, k)
    ensures ShareAtMost(x, h'.reigns[t].log, k)
  {
    var g, g' := h.reigns[t].log, h'.reigns[t].log;
    assert ReignLe(h.reigns[t], h'.reigns[t]);
    if k < |x| && k < |g'| {
      if k < |g| {
        assert g'[..k + 1] == g[..k + 1];
      } else {
        assert RootedAt(h, x, k);
        assert x[..k + 1][k] != g'[..k + 1][k];
      }
    }
  }

  /** n may become n' without lowering any floor kept for it and without losing sync. */
  ghost predicate Stable(h: History, h': History, n: Node, n': Node) {
    && n'.id == n.id && n'.term >= n.term
    && (forall t, k {:trigger Floor(h, t, n, k)} {:trigger Floor(h', t, n', k)} ::
          t in h.reigns && t in h'.reigns && h.reigns[t].leader != n.id && Floor(h, t, n, k) ==> Floor(h', t, n', k))
    && (forall t {:trigger Synced(h, t, n)} {:trigger Synced(h', t, n')} ::
          t in h.reigns && t in h'.reigns && h.reigns[t].leader != n.id && Synced(h, t, n) ==> Synced(h', t, n'))
  }

  /** A node whose log does not change is stable, whatever its term does. */
  lemma StableSameLog(c: Config, h: History, h': History, n: Node, n': Node)
    requires Extends(h, h') && HistoryOk(c, h) && HistoryOk(c, h') && LogOk(h, n)
    requires n'.id == n.id && n'.term >= n.term && n'.log == n.log
    ensures Stable(h, h', n, n')
  {
    forall t, k: nat | t in h.reigns && t in h'.reigns && Floor(h, t, n, k) ensures Floor(h', t, n', k) {
      assert ReignLe(h.reigns[t], h'.reigns[t]);
      assert ReignOk(c, h, t) && ReignOk(c, h', t);
      if n.term < t == n'.term {
        StartAbove(c, h, h', n, t, k);
      } else if n'.term == t && !(n.log <= h.reigns[t].log) {
        ShareGrows(c, h, h', t, n.log, k);
      }
    }
    forall t | t in h.reigns && t in h'.reigns && Synced(h, t, n) ensures Synced(h', t, n') {
      assert ReignLe(h.reigns[t], h'.reigns[t]);
    }
  }

  /** A node that has not been in term t shares at most what its leader started with. */
  lemma StartAbove(c: Config, h: History, h': History, n: Node, t: nat, k: nat)
    requires Extends(h, h') && t in h.reigns && t in h'.reigns && ReignOk(c, h', t) && LogOk(h, n)
    requires n.term < t && k >= |h.reigns[t].start|
    ensures ShareAtMost(n.log, h'.reigns[t].log, k)
  {
    assert ReignLe(h.reigns[t], h'.reigns[t]);
    var g := h'.reigns[t].log;
    if k < |n.log| && k < |g| {
      assert n.log[..k + 1][k] != g[..k + 1][k];
    }
  }

  lemma ArgsMono(c: Config, h: History, h': History, a: AppendArgs)
    requires Extends(h, h') && ArgsOk(c, h, a)
    ensures ArgsOk(c, h', a)
  {
    var r, r' := h.reigns[a.term], h'.reigns[a.term];
    assert ReignLe(r, r');
    SafeMono(c, h, h', r.log[..a.commit], a.term);
    assert r'.log[..a.commit] == r.log[..a.commit];
    assert r'.log[a.prev..a.prev + |a.entries|] == r.log[a.prev..a.prev + |a.entries|];
  }

  ghost predicate AllStable(ns: map<NodeId, Node>, ns': map<NodeId, Node>, h: History, h': History)
    requires ns.Keys == ns'.Keys
  {
    forall j {:trigger Stable(h, h', ns[j], ns'[j])} :: j in ns ==> ns[j].id == j && Stable(h, h', ns[j], ns'[j])
  }

  lemma MsgMono(c: Config, ns: map<NodeId, Node>, ns': map<NodeId, Node>, h: History, h': History, m: Msg)
    requires ns.Keys == ns'.Keys == c.nodes
    requires Extends(h, h') && HistoryOk(c, h')
    requires AllStable(ns, ns', h, h')
    requires MsgOk(c, ns, h, m)
    ensures MsgOk(c, ns', h', m)
  {
    match m
    case VoteReq(to, cand, term, lastIndex, lastTerm) =>
    case VoteRep(from, cand, reqTerm, term, ok) =>
      if reqTerm in h'.reigns {
        assert ReignOk(c, h', reqTerm);
        if reqTerm in h.reigns {
          assert ReignLe(h.reigns[reqTerm], h'.reigns[reqTerm]);
        }
      }
    case AppendReq(to, a) =>
      ArgsMono(c, h, h', a);
      assert Stable(h, h', ns[to], ns'[to]);
      assert Floor(h, a.term, ns[to], a.prev);
    case AppendRep(from, a, term, ok) =>
      ArgsMono(c, h, h', a);
      assert Stable(h, h', ns[from], ns'[from]);
  }

  /** A leader whose own progress tables do not change. */
  lemma ProgressMono(h: History, h': History, n: Node, n': Node, p: Node, p': Node)
    requires Extends(h, h') && n.term in h.reigns && n.term in h'.reigns
    requires h.reigns[n.term].leader == n.id && p.id != n.id
    requires ProgressOk(h, n, p) && Stable(h, h', p, p')
    requires n'.term == n.term && n'.next == n.next && n'.matched == n.matched && |n'.log| >= |n.log|
    ensures ProgressOk(h', n', p')
  {
  }
}
