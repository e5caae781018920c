/** Runs of a state machine given by its step relation. */
module Runs {

  /** `path` visits the states of a run with these steps. */
  ghost predicate RunOf<S, T>(next: (S, T, S) -> bool, path: seq<S>, steps: seq<T>) {
    && |path| == |steps| + 1
    && forall i :: 0 <= i < |steps| ==> next(path[i], steps[i], path[i + 1])
  }

  /** A run goes on with another one that starts where it ends. */
  lemma ConcatRuns<S, T>(next: (S, T, S) -> bool, path: seq<S>, steps: seq<T>, path': seq<S>, steps': seq<T>)
    requires RunOf(next, path, steps) && RunOf(next, path', steps') && path[|steps|] == path'[0]
    ensures RunOf(next, path + path'[1..], steps + steps')
  {
    var p, q := path + path'[1..], steps + steps';
    forall i | 0 <= i < |q|
      ensures next(p[i], q[i], p[i + 1])
    {
      if i >= |steps| {
        assert q[i] == steps'[i - |steps|] && p[i] == path'[i - |steps|] && p[i + 1] == path'[i - |steps| + 1];
      }
    }
  }
}
