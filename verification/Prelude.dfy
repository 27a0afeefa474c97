/** The result shapes and the few general facts that several modules use. */
module Prelude {
  datatype Option<+T> = None | Some(value: T)

  /** `Failed` is a Go error return; the error's text is kept only where the code branches on it. */
  datatype Result<+T, +E> = Done(value: T) | Failed(error: E)

  lemma SubsetSize<T>(a: set<T>, b: set<T>)
    requires a <= b
    ensures |a| <= |b|
  {
    if a != {} {
      var x :| x in a;
      SubsetSize(a - {x}, b - {x});
    }
  }

  /** What holds first, and from one point to the next exactly under a condition, holds throughout exactly under it. */
  lemma {:induction false} ThroughoutExactly(good: seq<bool>, step: seq<bool>, n: nat)
    requires n < |good| == |step| && good[0]
    requires forall k | 0 < k <= n && good[k - 1] :: good[k] == step[k]
    ensures (forall k | 0 <= k <= n :: good[k]) <==> forall k | 0 < k <= n :: step[k]
  {
    if n == 0 {
    } else {
      ThroughoutExactly(good, step, n - 1);
      assert good[n - 1] ==> good[n] == step[n];
      if forall k | 0 <= k <= n :: good[k] {
        assert good[n] && good[n - 1];
      }
      if forall k | 0 < k <= n :: step[k] {
        assert step[n];
      }
    }
  }
}
