/** Shared vocabulary: optional values, results with the failures the
    modelled code raises, and sums over sequences of reals. */
module Basics {

  datatype Option<+T> = None | Some(value: T)

  /** The exceptions the modelled code raises, as values. */
  datatype Error =
    | InvalidAugmentationIndex(index: int)   // ValueError in get_test_fold
    | MissingFold(id: int)                   // KeyError on fold_<id>
    | MissingColumn(name: string)            // KeyError on a frame column
    | ShapeMismatch                          // numpy/pandas shape errors
    | MissingMetric(metric: string)          // KeyError on result[metric]
    | UnsupportedWeighting(weighting: string)
    | MissingCycleLosses                     // cycle_losses is None or too short
    | EmptyEnsemble                          // self.models[0] on an empty list
    | ZeroWeightSum                          // division by a zero weight sum
    | DuplicateColumns                       // a frame whose column names repeat
    | NoAugmentedViews                       // test-time averaging over no views
    | MissingAttribute(name: string)         // AttributeError
    | ZeroMetric                             // reciprocal of a zero metric value
    | IndexOutOfRange                        // IndexError on a list or array

  datatype Result<+T> = Ok(value: T) | Err(error: Error)

  /** No element occurs twice. */
  predicate Distinct<T(==)>(s: seq<T>)
  {
    forall i, j :: 0 <= i < j < |s| ==> s[i] != s[j]
  }

  /** Sum of a sequence of reals, accumulated from the left. */
  function Sum(s: seq<real>): real
    decreases |s|
  {
    if s == [] then 0.0 else Sum(s[..|s| - 1]) + s[|s| - 1]
  }

  /** Every element multiplied by k. */
  function Scaled(s: seq<real>, k: real): (r: seq<real>)
    ensures |r| == |s|
  {
    seq(|s|, i requires 0 <= i < |s| => s[i] * k)
  }

  lemma {:induction false} SumScaled(s: seq<real>, k: real)
    ensures Sum(Scaled(s, k)) == k * Sum(s)
    decreases |s|
  {
    if s != [] {
      var p := s[..|s| - 1];
      SumScaled(p, k);
      assert forall i :: 0 <= i < |p| ==> Scaled(s, k)[i] == Scaled(p, k)[i];
      assert Scaled(s, k)[..|s| - 1] == Scaled(p, k);
    }
  }

  lemma {:induction false} SumPositive(s: seq<real>)
    requires forall i :: 0 <= i < |s| ==> s[i] > 0.0
    ensures s != [] ==> Sum(s) > 0.0
    ensures Sum(s) >= 0.0
    decreases |s|
  {
    if s != [] {
      SumPositive(s[..|s| - 1]);
    }
  }

  lemma {:induction false} SumAppend(a: seq<real>, b: seq<real>)
    ensures Sum(a + b) == Sum(a) + Sum(b)
    decreases |b|
  {
    if b == [] {
      assert a + b == a;
    } else {
      var b' := b[..|b| - 1];
      SumAppend(a, b');
      assert (a + b)[..|a + b| - 1] == a + b';
      assert (a + b)[|a + b| - 1] == b[|b| - 1];
    }
  }

  function Pow2(k: nat): (r: nat)
    ensures r >= 1
  {
    if k == 0 then 1 else 2 * Pow2(k - 1)
  }

  /** Python's `xs[:n]` end position for an optional `n` (None means all). */
  function SliceEnd(n: Option<int>, len: nat): (e: nat)
    ensures e <= len
    ensures n.None? ==> e == len
    ensures n.Some? && 0 <= n.value <= len ==> e == n.value
    ensures n.Some? && n.value < 0 && -n.value <= len ==> e == len + n.value
  {
    match n
    case None => len
    case Some(k) =>
      if k >= 0 then (if k < len then k else len)
      else if len + k > 0 then len + k else 0
  }
}
