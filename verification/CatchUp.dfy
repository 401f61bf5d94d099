/** The append loop as a splice, and how alternating requests and replies bring a follower up to date. */
module CatchUp {
  import opened Quorum
  import opened Bank
  import opened NodeSpec

  // ---------- the append loop ----------

  /** Position c of the message is the first that the log lacks or holds with another term. */
  predicate FirstConflict(log: Log, prev: nat, entries: Log, c: nat) {
    && c < |entries|
    && (prev + c >= |log| || log[prev + c].term != entries[c].term)
    && forall k :: 0 <= k < c ==> prev + k < |log| && log[prev + k].term == entries[k].term
  }

  /** The loop refines a splice: nothing changes if the log has every entry in the same term; otherwise
      the log is kept up to the first conflict and then continues as the message does, and ends there. */
  lemma {:induction false} SpliceMeaning(log: Log, prev: nat, entries: Log) returns (c: nat)
    requires prev <= |log|
    ensures c <= |entries| && prev + c <= |log|
    ensures c < |entries| ==> FirstConflict(log, prev, entries, c)
    ensures c < |entries| ==> Splice(log, prev, entries) == log[..prev + c] + entries[c..]
    ensures c == |entries| ==> Splice(log, prev, entries) == log
    ensures c == |entries| ==> forall k :: 0 <= k < |entries| ==> log[prev + k].term == entries[k].term
    decreases |entries|
  {
    if entries != [] && prev < |log| && log[prev].term == entries[0].term {
      c := SpliceMeaning(log, prev + 1, entries[1..]);
      c := c + 1;
      assert entries[1..][c - 1..] == entries[c..];
      forall k | 0 <= k < c ensures prev + k < |log| && log[prev + k].term == entries[k].term {
        if k > 0 {
          assert entries[1..][k - 1] == entries[k];
        }
      }
    } else {
      c := 0;
    }
  }

  lemma {:induction false} SpliceAgreed(log: Log, prev: nat, entries: Log)
    requires prev + |entries| <= |log|
    requires forall k :: 0 <= k < |entries| ==> log[prev + k].term == entries[k].term
    ensures Splice(log, prev, entries) == log
    decreases |entries|
  {
    if entries != [] {
      SpliceAgreed(log, prev + 1, entries[1..]);
    }
  }

  /** Redelivery is harmless: taking a message a second time changes nothing. */
  lemma SpliceIdempotent(log: Log, prev: nat, entries: Log)
    requires prev <= |log|
    ensures prev <= |Splice(log, prev, entries)|
    ensures Splice(Splice(log, prev, entries), prev, entries) == Splice(log, prev, entries)
  {
    var c := SpliceMeaning(log, prev, entries);
    var x := Splice(log, prev, entries);
    if c < |entries| {
      forall k | 0 <= k < |entries| ensures x[prev + k].term == entries[k].term {
      }
    }
    SpliceAgreed(x, prev, entries);
  }

  // ---------- one leader, one follower ----------

  /** Log matching between two logs. */
  predicate Matched(x: Log, y: Log) {
    forall k :: 0 <= k < |x| && k < |y| && x[k].term == y[k].term ==> x[..k + 1] == y[..k + 1]
  }

  predicate Numbered(x: Log) {
    forall k :: 0 <= k < |x| ==> x[k].index == k + 1
  }

  /** y holds the first k entries of x. */
  predicate Holds(x: Log, y: Log, k: nat) {
    k <= |x| && k <= |y| && x[..k] == y[..k]
  }

  /** A present leader with truthful tables for p, and a follower not ahead of it in term. */
  predicate Pair(n: Node, p: Node) {
    && n.role == LEADER && p.term <= n.term && p.id != n.id
    && Matched(n.log, p.log) && Numbered(n.log)
    && 1 <= Lookup(n.next, p.id) <= |n.log| + 1
    && Holds(n.log, p.log, Lookup(n.matched, p.id))
  }

  /** One exchange: build, deliver, reply. */
  function Exchange(c: Config, n: Node, p: Node): (Node, Node) {
    var a := BuildAppend(n, p.id, Sub1(Lookup(n.next, p.id)));
    var v := HandleAppend(p, a);
    (HandleAppendReply(c, n, p.id, a, v.term, v.ok), v.node)
  }

  function Exchanges(c: Config, n: Node, p: Node, k: nat): (Node, Node)
    decreases k
  {
    if k == 0 then (n, p) else var (n', p') := Exchange(c, n, p); Exchanges(c, n', p', k - 1)
  }

  function Tried(n: Node, p: Node): nat { Sub1(Lookup(n.next, p.id)) }

  lemma RefusedExchange(c: Config, n: Node, p: Node)
    requires n.role == LEADER && p.term <= n.term && Tried(n, p) >= 1
    requires !Accepts(p.log, Tried(n, p), TermAt(n.log, Tried(n, p)))
    ensures Exchange(c, n, p) == (n.(next := n.next[p.id := Tried(n, p)]), Adopt(p, n.term))
  {
  }

  lemma AcceptedHolds(x: Log, y: Log, m: nat)
    requires Matched(x, y) && m <= |x|
    ensures Accepts(y, m, TermAt(x, m)) ==> Holds(x, y, m)
  {
  }

  lemma OneMore(c: Config, n: Node, p: Node, k: nat)
    ensures Exchanges(c, n, p, k + 1) == Exchanges(c, Exchange(c, n, p).0, Exchange(c, n, p).1, k)
  {
  }

  /** Above what the two logs share, the follower refuses and nextIndex steps back by one. */
  lemma Refuses(c: Config, n: Node, p: Node) returns (n': Node, p': Node)
    requires Pair(n, p) && !Holds(n.log, p.log, Tried(n, p))
    ensures (n', p') == Exchange(c, n, p)
    ensures Pair(n', p') && n'.log == n.log && p'.log == p.log
    ensures Tried(n', p') == Tried(n, p) - 1
  {
    AcceptedHolds(n.log, p.log, Tried(n, p));
    RefusedExchange(c, n, p);
    n', p' := Exchange(c, n, p).0, Exchange(c, n, p).1;
  }

  lemma {:induction false} SpliceAhead(x: Log, y: Log, m: nat, entries: Log, j: nat)
    requires Matched(x, y) && Holds(x, y, m) && m + |entries| <= |x| && entries == x[m..m + |entries|] && Holds(x, y, j)
    ensures var z := Splice(y, m, entries);
            Holds(x, z, m + |entries|) && (z == y || z == x[..m + |entries|]) && Holds(x, z, j)
    decreases |entries|
  {
    if entries != [] {
      if m < j {
        assert x[..j][m] == y[..j][m];
      }
      if m < |y| && y[m].term == entries[0].term {
        assert x[m].term == y[m].term;
        assert x[..m + 1] == y[..m + 1];
        SpliceAhead(x, y, m + 1, entries[1..], j);
      }
    }
  }

  lemma AcceptsShared(x: Log, y: Log, m: nat)
    requires Holds(x, y, m)
    ensures Accepts(y, m, TermAt(x, m))
  {
  }

  lemma TakenExchange(c: Config, n: Node, p: Node)
    requires n.role == LEADER && p.term <= n.term && Lookup(n.next, p.id) >= 1
    requires Accepts(p.log, Tried(n, p), TermAt(n.log, Tried(n, p)))
    ensures var (n', p') := Exchange(c, n, p); var entries := Slice(n.log, Lookup(n.next, p.id));
            && p'.log == Splice(p.log, Tried(n, p), entries) && p'.id == p.id && p'.term == n.term
            && n'.role == LEADER && n'.term == n.term && n'.log == n.log && n'.id == n.id
            && (entries == [] ==> n' == n)
            && (entries != [] ==> var r := Max(Lookup(n.matched, p.id), entries[|entries| - 1].index);
                                  n'.matched == n.matched[p.id := r] && n'.next == n.next[p.id := r + 1])
  {
  }

  /** What a slice from m of a numbered log does to a log that holds its first m entries. */
  lemma SliceTaken(x: Log, y: Log, m: nat, j: nat)
    requires Matched(x, y) && Numbered(x) && Holds(x, y, m) && Holds(x, y, j)
    ensures var entries, m', z := Slice(x, m + 1), Min(|x|, m + BATCH), Splice(y, m, Slice(x, m + 1));
            && |entries| == m' - m && (entries != [] ==> entries[|entries| - 1].index == m')
            && Holds(x, z, m') && Holds(x, z, j) && Matched(x, z)
  {
    var entries := Slice(x, m + 1);
    assert entries == x[m..m + |entries|] && m + |entries| == Min(|x|, m + BATCH);
    SpliceAhead(x, y, m, entries, j);
    MatchedPrefix(x, m + |entries|);
    if entries != [] {
      assert entries[|entries| - 1] == x[m + |entries| - 1];
    }
  }

  lemma AdvancedPair(n: Node, p: Node, n': Node, p': Node)
    requires Pair(n, p) && Holds(n.log, p.log, Tried(n, p))
    requires var entries := Slice(n.log, Lookup(n.next, p.id));
             && p'.log == Splice(p.log, Tried(n, p), entries) && p'.id == p.id && p'.term == n.term
             && n'.role == LEADER && n'.term == n.term && n'.log == n.log && n'.id == n.id
             && (entries == [] ==> n' == n)
             && (entries != [] ==> var r := Max(Lookup(n.matched, p.id), entries[|entries| - 1].index);
                                   n'.matched == n.matched[p.id := r] && n'.next == n.next[p.id := r + 1])
    ensures Pair(n', p') && Tried(n', p') >= Min(|n.log|, Tried(n, p) + BATCH) && Holds(n.log, p'.log, Tried(n', p'))
  {
    SliceTaken(n.log, p.log, Tried(n, p), Lookup(n.matched, p.id));
  }

  /** At or below it, the follower takes up to a hundred entries and nextIndex moves at least past them. */
  lemma Advances(c: Config, n: Node, p: Node) returns (n': Node, p': Node)
    requires Pair(n, p) && Holds(n.log, p.log, Tried(n, p))
    ensures (n', p') == Exchange(c, n, p)
    ensures Pair(n', p') && n'.log == n.log
    ensures Tried(n', p') >= Min(|n.log|, Tried(n, p) + BATCH) && Holds(n.log, p'.log, Tried(n', p'))
  {
    AcceptsShared(n.log, p.log, Tried(n, p));
    TakenExchange(c, n, p);
    n', p' := Exchange(c, n, p).0, Exchange(c, n, p).1;
    AdvancedPair(n, p, n', p');
  }

  lemma MatchedPrefix(x: Log, k: nat)
    requires k <= |x|
    ensures Matched(x, x[..k])
  {
  }

  /** Batches still to send after the first m entries are known to be held. */
  function Batches(m: nat, size: nat): nat
    requires m <= size
  {
    (size - m + BATCH - 1) / BATCH
  }

  /** The follower holds all of the log x, and the leader knows it. */
  predicate CaughtUp(x: Log, e: (Node, Node)) {
    e.0.log == x && x <= e.1.log && Tried(e.0, e.1) == |x|
  }

  lemma NoneLeft(n: Node, p: Node)
    requires Pair(n, p) && Holds(n.log, p.log, Tried(n, p)) && Batches(Tried(n, p), |n.log|) == 0
    ensures CaughtUp(n.log, (n, p))
  {
  }

  lemma {:induction false} AdvancesToEnd(c: Config, n: Node, p: Node, k: nat)
    requires Pair(n, p) && Holds(n.log, p.log, Tried(n, p)) && k >= Batches(Tried(n, p), |n.log|)
    ensures CaughtUp(n.log, Exchanges(c, n, p, k))
    decreases k
  {
    if k == 0 {
      NoneLeft(n, p);
    } else {
      var n1, p1 := Advances(c, n, p);
      BatchStep(Tried(n, p), Tried(n1, p1), |n.log|, k);
      AdvancesToEnd(c, n1, p1, k - 1);
      OneMore(c, n, p, k - 1);
    }
  }

  lemma BatchStep(m: nat, m': nat, size: nat, k: nat)
    requires m <= size && Min(size, m + BATCH) <= m' <= size && k >= 1 && k >= Batches(m, size)
    ensures k - 1 >= Batches(m', size)
  {
  }

  /** d is the longest prefix shared by x and y that is no longer than top. */
  ghost predicate Parts(x: Log, y: Log, d: nat, top: nat) {
    d <= top && Holds(x, y, d) && forall k {:trigger Holds(x, y, k)} :: d < k <= top ==> !Holds(x, y, k)
  }

  lemma {:induction false} ExchangesAdd(c: Config, n: Node, p: Node, i: nat, j: nat)
    ensures Exchanges(c, n, p, i + j) == Exchanges(c, Exchanges(c, n, p, i).0, Exchanges(c, n, p, i).1, j)
    decreases i
  {
    if i > 0 {
      OneMore(c, n, p, i - 1);
      OneMore(c, n, p, i - 1 + j);
      ExchangesAdd(c, Exchange(c, n, p).0, Exchange(c, n, p).1, i - 1, j);
    }
  }

  /** The first nextIndex - 1 - d exchanges are all refusals: the follower's log stays as it is. */
  lemma {:induction false} RefusesFirst(c: Config, n: Node, p: Node, d: nat, top: nat, j: nat)
    requires Pair(n, p) && top == Tried(n, p) && Parts(n.log, p.log, d, top) && j <= top - d
    ensures var (n', p') := Exchanges(c, n, p, j);
            Pair(n', p') && n'.log == n.log && p'.log == p.log && Tried(n', p') == top - j
    decreases j
  {
    if j > 0 {
      var n1, p1 := Refuses(c, n, p);
      RefusesFirst(c, n1, p1, d, top - 1, j - 1);
      OneMore(c, n, p, j - 1);
    }
  }

  /** Catch-up terminates: if d is the longest shared prefix not above nextIndex - 1, the follower refuses
      exactly nextIndex - 1 - d times and then takes the rest in batches of a hundred, after which the
      leader's log is a prefix of the follower's and nextIndex is at its end. */
  lemma CatchesUp(c: Config, n: Node, p: Node, d: nat, refusals: nat, batches: nat) returns (n': Node, p': Node)
    requires Pair(n, p) && Parts(n.log, p.log, d, Tried(n, p))
    requires refusals == Tried(n, p) - d && batches == Batches(d, |n.log|)
    ensures (n', p') == Exchanges(c, n, p, refusals + batches)
    ensures n'.log == n.log && n.log <= p'.log && Tried(n', p') == |n.log|
  {
    RefusesFirst(c, n, p, d, Tried(n, p), refusals);
    var n1, p1 := Exchanges(c, n, p, refusals).0, Exchanges(c, n, p, refusals).1;
    AdvancesToEnd(c, n1, p1, batches);
    ExchangesAdd(c, n, p, refusals, batches);
    n', p' := Exchanges(c, n1, p1, batches).0, Exchanges(c, n1, p1, batches).1;
  }
}
