/** Shared vocabulary: optional values, results, and sums over sequences. */
module Foundations {
  datatype Option<+T> = None | Some(value: T)

  datatype Result<+T, +E> = Ok(value: T) | Err(error: E)

  function Abs(x: real): real { if x < 0.0 then -x else x }

  /** The sum of a weight over a table, row by row. */
  function Sum<T>(s: seq<T>, weight: T -> real): real
  {
    if s == [] then 0.0 else Sum(s[..|s| - 1], weight) + weight(s[|s| - 1])
  }

  lemma SumAppend<T>(s: seq<T>, x: T, weight: T -> real)
    ensures Sum(s + [x], weight) == Sum(s, weight) + weight(x)
  {
    assert (s + [x])[..|s|] == s;
  }

  lemma {:induction false} SumUpdate<T>(s: seq<T>, i: nat, x: T, weight: T -> real)
    requires i < |s|
    ensures Sum(s[i := x], weight) == Sum(s, weight) - weight(s[i]) + weight(x)
  {
    var last := |s| - 1;
    if i == last {
      assert s[i := x][..last] == s[..last];
    } else {
      assert s[i := x][..last] == s[..last][i := x];
      SumUpdate(s[..last], i, x, weight);
    }
  }

  lemma {:induction false} SumMonotone<T>(s: seq<T>, low: T -> real, high: T -> real)
    requires forall i :: 0 <= i < |s| ==> low(s[i]) <= high(s[i])
    ensures Sum(s, low) <= Sum(s, high)
  {
    if s != [] {
      SumMonotone(s[..|s| - 1], low, high);
    }
  }

  lemma {:induction false} SumNonNegative<T>(s: seq<T>, weight: T -> real)
    requires forall i :: 0 <= i < |s| ==> weight(s[i]) >= 0.0
    ensures Sum(s, weight) >= 0.0
  {
    if s != [] {
      SumNonNegative(s[..|s| - 1], weight);
    }
  }

  lemma {:induction false} SumPointwise<T>(s: seq<T>, t: seq<T>, weight: T -> real)
    requires |s| == |t| && forall i :: 0 <= i < |s| ==> weight(s[i]) == weight(t[i])
    ensures Sum(s, weight) == Sum(t, weight)
  {
    if s != [] {
      SumPointwise(s[..|s| - 1], t[..|t| - 1], weight);
    }
  }
}
