/** Extending a run step by step. */
module Runs {
  import opened Bank
  import opened Cluster

  /** The three steps can be taken one after the other. */
  predicate CanTake(s: State, x: Step, y: Step, z: Step) {
    Enabled(s, x) && Enabled(Do(s, x), y) && Enabled(Do(Do(s, x), y), z)
  }

  function Take(s: State, x: Step, y: Step, z: Step): State
    requires CanTake(s, x, y, z)
  {
    Do(Do(Do(s, x), y), z)
  }

  /** r is the run ss with n more states. */
  ghost predicate Longer(ss: seq<State>, r: seq<State>, n: nat, genesis: Bank) {
    Run(r, genesis) && |r| == |ss| + n && r[..|ss|] == ss
  }

  lemma Extend(ss: seq<State>, genesis: Bank, step: Step) returns (r: seq<State>)
    requires Run(ss, genesis) && Enabled(ss[|ss| - 1], step)
    ensures Longer(ss, r, 1, genesis) && r[|r| - 1] == Do(ss[|ss| - 1], step) && r[|r| - 1].c == ss[|ss| - 1].c
  {
    r := ss + [Do(ss[|ss| - 1], step)];
    forall k | 0 <= k < |r| - 1 ensures Next(r[k], r[k + 1]) {
      if k < |ss| - 1 {
        assert Next(ss[k], ss[k + 1]);
      }
    }
  }

  lemma Extend3(ss: seq<State>, genesis: Bank, x: Step, y: Step, z: Step) returns (r: seq<State>)
    requires Run(ss, genesis) && CanTake(ss[|ss| - 1], x, y, z)
    ensures Longer(ss, r, 3, genesis) && r[|r| - 1] == Take(ss[|ss| - 1], x, y, z) && r[|r| - 1].c == ss[|ss| - 1].c
  {
    r := Extend(ss, genesis, x);
    r := Extend(r, genesis, y);
    r := Extend(r, genesis, z);
  }
}
