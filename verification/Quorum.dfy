/** Cluster membership and the vote/commit thresholds of the source. */
module Quorum {
  type NodeId = nat

  /** `nodes` are the ids of the cluster. `listsSelf` says whether a node's peer list holds the node
      itself, as main.cpp builds it, or leaves it out, as the header's example does. */
  datatype Config = Config(nodes: set<NodeId>, listsSelf: bool) {
    function Listed(id: NodeId): set<NodeId> {
      if listsSelf then nodes else nodes - {id}
    }

    /** The ids a node has a stub for. */
    function Peers(id: NodeId): set<NodeId> {
      nodes - {id}
    }

    /** The size of the peer list, the same for every member. */
    function ListSize(): int {
      if listsSelf then |nodes| else |nodes| - 1
    }

    /** Votes needed by a candidate. Commit asks for `count > (size + 1) / 2`, the same number. */
    function Needed(): int {
      (ListSize() + 1) / 2 + 1
    }
  }

  lemma ListedSize(c: Config, id: NodeId)
    requires id in c.nodes
    ensures |c.Listed(id)| == c.ListSize()
  {
  }

  lemma {:induction false} SubsetSize<T>(a: set<T>, b: set<T>)
    requires a <= b
    ensures |a| <= |b|
  {
    if a != {} {
      var x :| x in a;
      SubsetSize(a - {x}, b - {x});
    }
  }

  /** Two sets of members that both reach the threshold share a member, for either kind of peer list. */
  lemma QuorumsMeet(c: Config, a: set<NodeId>, b: set<NodeId>) returns (v: NodeId)
    requires a <= c.nodes && b <= c.nodes
    requires |a| >= c.Needed() && |b| >= c.Needed()
    ensures v in a && v in b
  {
    if a * b == {} {
      assert |a + b| == |a| + |b|;
      SubsetSize(a + b, c.nodes);
      assert false;
    }
    v :| v in a * b;
  }

  /** The threshold is the least one that guarantees intersection exactly when the list leaves the
      node out; with the node listed, an odd cluster asks for one vote more than a majority. */
  lemma ThresholdAgainstMajority(c: Config)
    requires c.nodes != {}
    ensures var n := |c.nodes|;
            && (!c.listsSelf ==> c.Needed() == n / 2 + 1)
            && (c.listsSelf ==> c.Needed() == (if n % 2 == 1 then n / 2 + 2 else n / 2 + 1))
            && 2 * c.Needed() > n
  {
  }
}
