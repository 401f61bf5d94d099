/** Consequences of the invariant inside one state: log matching, election safety, leader completeness. */
module HistoryFacts {
  import opened Quorum
  import opened Bank
  import opened NodeSpec
  import opened Cluster
  import opened Invariant

  /** Log matching: rooted logs with the same term at an index agree up to it. */
  lemma Matching(h: History, a: Log, b: Log, k: nat)
    requires Rooted(h, a) && Rooted(h, b)
    requires k < |a| && k < |b| && a[k].term == b[k].term
    ensures a[..k + 1] == b[..k + 1]
  {
    assert RootedAt(h, a, k) && RootedAt(h, b, k);
  }

  lemma RootedPrefix(h: History, x: Log, j: nat)
    requires Rooted(h, x) && j <= |x|
    ensures Rooted(h, x[..j])
  {
    forall k | 0 <= k < j ensures RootedAt(h, x[..j], k) {
      assert RootedAt(h, x, k);
      assert x[..j][..k + 1] == x[..k + 1];
    }
  }

  lemma ReignRooted(c: Config, h: History, t: nat)
    requires t in h.reigns && ReignOk(c, h, t)
    ensures Rooted(h, h.reigns[t].log)
  {
    var r := h.reigns[t];
    forall k | 0 <= k < |r.log| ensures RootedAt(h, r.log, k) {
      if k < |r.start| {
        assert RootedAt(h, r.start, k);
        assert r.log[..k + 1] == r.start[..k + 1];
      }
    }
  }

  /** Terms never go down along a log. */
  lemma TermsRise(c: Config, h: History, x: Log, j: nat, k: nat)
    requires HistoryOk(c, h) && Rooted(h, x) && j <= k < |x|
    ensures x[j].term <= x[k].term
  {
    assert RootedAt(h, x, k);
    var t := x[k].term;
    assert x[j] == x[..k + 1][j];
    assert ReignOk(c, h, t);
  }

  /** Two elections of one term cannot both succeed: a candidate in a term that has a leader never
      reaches the threshold, although members that saw the leader may have voted twice. */
  lemma ElectionSafety(c: Config, h: History, n: Node)
    requires HistoryOk(c, h) && RoleOk(c, h, n)
    requires n.role == CANDIDATE && n.term in h.reigns
    ensures |n.granted| < c.Needed()
  {
    if |n.granted| >= c.Needed() {
      assert ReignOk(c, h, n.term);
      var v := QuorumsMeet(c, n.granted, h.reigns[n.term].voters);
      assert false;
    }
  }

  lemma PrefixChain(x: Log, y: Log, z: Log)
    requires x <= y && y <= z
    ensures x <= z
  {
  }

  /** A nonempty rooted log is a prefix of the log of its last entry's leader. */
  lemma LastRoot(h: History, x: Log)
    requires Rooted(h, x) && x != []
    ensures LastTerm(x) in h.reigns && x <= h.reigns[LastTerm(x)].log
  {
    assert RootedAt(h, x, |x| - 1);
    assert x[..|x| - 1 + 1] == x;
  }

  /** The last entry of a log that holds an entry of term t has term t or a later one. */
  lemma LastTermAtLeast(c: Config, h: History, x: Log, y: Log, t: nat)
    requires HistoryOk(c, h) && Rooted(h, y) && x <= y && x != [] && LastTerm(x) == t
    ensures LastTerm(y) >= t
  {
    TermsRise(c, h, y, |x| - 1, |y| - 1);
  }

  /** A log that ends in an entry of term u holds all of what term u's leader started with. */
  lemma HoldsStart(c: Config, h: History, y: Log, u: nat)
    requires u in h.reigns && ReignOk(c, h, u) && y != [] && LastTerm(y) == u && y <= h.reigns[u].log
    ensures h.reigns[u].start <= y
  {
  }

  /** The restriction on voting: a log that is up to date against one holding x, which ends in term t,
      holds x too, if the leaders of the terms between started with x. */
  lemma UpToDateKeeps(c: Config, h: History, t: nat, x: Log, cl: Log, vl: Log, before: nat)
    requires HistoryOk(c, h) && x != [] && LastTerm(x) == t >= 1
    requires Rooted(h, cl) && Rooted(h, vl)
    requires UpToDate(LastTerm(cl), |cl|, vl)
    requires x <= vl
    requires cl != [] ==> LastTerm(cl) < before
    requires forall u :: u in h.reigns && t < u < before ==> x <= h.reigns[u].start
    ensures x <= cl
  {
    LastTermAtLeast(c, h, x, vl, t);
    LastRoot(h, vl);
    LastRoot(h, cl);
    var u := LastTerm(cl);
    if u == LastTerm(vl) {
      assert vl <= cl;
      PrefixChain(x, vl, cl);
    } else {
      HoldsStart(c, h, cl, u);
      PrefixChain(x, h.reigns[u].start, cl);
    }
  }

  /** Leader completeness: what was committed in term t is in the log every later leader started with. */
  lemma LeaderCompleteness(c: Config, h: History, t: nat, k: nat, u: nat)
    requires HistoryOk(c, h) && Committed(c, h, t, k)
    requires u in h.reigns && t < u
    ensures h.reigns[t].log[..k] <= h.reigns[u].start
    decreases u
  {
    var r := h.reigns[u];
    assert ReignOk(c, h, u);
    var v := QuorumsMeet(c, Ackers(c, h, t, k), r.voters);
    forall w | w in h.reigns && t < w < u ensures h.reigns[t].log[..k] <= h.reigns[w].start {
      LeaderCompleteness(c, h, t, k, w);
    }
    var vl := h.ballots[(u, v)].log;
    assert BallotOk(c, h, u, v) && BallotOk(c, h, u, r.leader);
    assert BallotKept(h, u, v, u - 1);
    assert Kept(h, t, k, vl, u - 1);
    assert ReignOk(c, h, t);
    UpToDateKeeps(c, h, t, h.reigns[t].log[..k], r.start, vl, u);
  }

  lemma StartInLog(c: Config, h: History, u: nat)
    requires HistoryOk(c, h) && u in h.reigns
    ensures h.reigns[u].start <= h.reigns[u].log
  {
    assert ReignOk(c, h, u);
  }

  /** A safe log is a prefix of the log of every leader of a term at or above its own. */
  lemma SafeInReign(c: Config, h: History, x: Log, hi: nat, u: nat)
    requires HistoryOk(c, h) && Safe(c, h, x, hi)
    requires u in h.reigns && hi <= u
    ensures x <= h.reigns[u].log
  {
    if x != [] {
      var t: nat, k: nat :| t <= hi && Committed(c, h, t, k) && x <= h.reigns[t].log[..k];
      var y := h.reigns[t].log[..k];
      if t < u {
        LeaderCompleteness(c, h, t, k, u);
        StartInLog(c, h, u);
        PrefixChain(y, h.reigns[u].start, h.reigns[u].log);
      }
      PrefixChain(x, y, h.reigns[u].log);
    }
  }

  /** Two safe logs: one is a prefix of the other. */
  lemma SafeComparable(c: Config, h: History, x: Log, y: Log, hx: nat, hy: nat)
    requires HistoryOk(c, h) && Safe(c, h, x, hx) && Safe(c, h, y, hy)
    ensures x <= y || y <= x
  {
    if x != [] && y != [] {
      var t: nat, k: nat :| t <= hx && Committed(c, h, t, k) && x <= h.reigns[t].log[..k];
      var u: nat, l: nat :| u <= hy && Committed(c, h, u, l) && y <= h.reigns[u].log[..l];
      assert Safe(c, h, x, t) && Safe(c, h, y, u);
      var w := if t < u then u else t;
      SafeInReign(c, h, x, t, w);
      SafeInReign(c, h, y, u, w);
    }
  }

  lemma SafePrefix(c: Config, h: History, x: Log, y: Log, hi: nat, hi': nat)
    requires Safe(c, h, y, hi) && x <= y && hi <= hi'
    ensures Safe(c, h, x, hi')
  {
  }
}
