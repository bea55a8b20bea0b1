/** The numpy array operations covid.py relies on, over exact numbers:
    slicing, `arange`, elementwise addition, `diff`, sums and `cumsum`. */
module Vectors {

  /** Python's `s[i:]` for a non-negative start: empty once `i` passes the end. */
  function SliceFrom<T>(s: seq<T>, i: nat): seq<T>
  {
    if i <= |s| then s[i..] else []
  }

  /** `np.arange(n)`: 0, 1, ..., n-1, and empty when n is not positive. */
  function Arange(n: int): seq<int>
  {
    seq(if n < 0 then 0 else n, i => i)
  }

  /** `np.zeros_like` of an integer vector of length n. */
  function Zeros(n: nat): seq<int>
  {
    seq(n, _ => 0)
  }

  /** Elementwise `a + b` of two vectors of equal length. */
  function Add(a: seq<int>, b: seq<int>): seq<int>
    requires |a| == |b|
  {
    seq(|a|, i requires 0 <= i < |a| => a[i] + b[i])
  }

  /** The cast of an integer vector to floating point, here to exact reals. */
  function ToReals(y: seq<int>): seq<real>
  {
    seq(|y|, i requires 0 <= i < |y| => y[i] as real)
  }

  /** `np.diff(y)`: consecutive differences, one fewer than the input, empty for an empty input. */
  function Diff(y: seq<real>): (d: seq<real>)
    ensures |d| == if y == [] then 0 else |y| - 1
    ensures forall i :: 0 <= i < |d| ==> y[i] + d[i] == y[i + 1]
  {
    if |y| == 0 then [] else seq(|y| - 1, i requires 0 <= i < |y| - 1 => y[i + 1] - y[i])
  }

  /** Total of a sequence of reals, taking the last element off first. */
  function Sum(s: seq<real>): real
  {
    if s == [] then 0.0 else Sum(s[..|s| - 1]) + s[|s| - 1]
  }

  /** Arithmetic mean of a non-empty window. */
  function Mean(w: seq<real>): real
    requires w != []
  {
    Sum(w) / (|w| as real)
  }

  /** Running totals as `cumsum` forms them: each element adds the next input to the total so far. */
  function CumSumFrom(total: real, y: seq<real>): (c: seq<real>)
    ensures |c| == |y|
    decreases |y|
  {
    if y == [] then [] else [total + y[0]] + CumSumFrom(total + y[0], y[1..])
  }

  /** `y.cumsum()`. */
  function CumSum(y: seq<real>): (c: seq<real>)
    ensures |c| == |y|
  {
    CumSumFrom(0.0, y)
  }

  /** A sum splits at any point into the sums of its two parts. */
  lemma {:induction false} SumSplit(s: seq<real>, a: nat)
    requires a <= |s|
    ensures Sum(s) == Sum(s[..a]) + Sum(s[a..])
    decreases |s|
  {
    if a < |s| {
      var t := s[..|s| - 1];
      SumSplit(t, a);
      assert t[..a] == s[..a];
      assert s[a..][..|s[a..]| - 1] == t[a..];
    } else {
      assert s[..a] == s;
    }
  }

  /** The difference of two prefix sums is the sum of the window between them. */
  lemma WindowSum(y: seq<real>, a: nat, b: nat)
    requires a <= b <= |y|
    ensures Sum(y[..b]) - Sum(y[..a]) == Sum(y[a..b])
  {
    SumSplit(y[..b], a);
    assert y[..b][..a] == y[..a];
    assert y[..b][a..] == y[a..b];
  }

  /** Element i of the running totals is the starting total plus the sum of the first i+1 inputs. */
  lemma {:induction false} CumSumFromAt(total: real, y: seq<real>, i: nat)
    requires i < |y|
    ensures CumSumFrom(total, y)[i] == total + Sum(y[..i + 1])
    decreases |y|
  {
    var p := y[..i + 1];
    assert p[..1] == [y[0]];
    assert Sum([y[0]]) == y[0] by { assert [y[0]][..0] == []; }
    if i > 0 {
      CumSumFromAt(total + y[0], y[1..], i - 1);
      SumSplit(p, 1);
      assert p[1..] == y[1..][..i];
    }
  }

  /** `cumsum` gives the prefix sums: C[i] = y[0] + ... + y[i]. */
  lemma CumSumIsPrefixSum(y: seq<real>, i: nat)
    requires i < |y|
    ensures CumSum(y)[i] == Sum(y[..i + 1])
  {
    CumSumFromAt(0.0, y, i);
  }

  /** The daily differences over a stretch add up to the change across it. */
  lemma {:induction false} DiffWindowSum(y: seq<real>, a: nat, b: nat)
    requires a <= b < |y|
    ensures Sum(Diff(y)[a..b]) == y[b] - y[a]
    decreases b - a
  {
    var d := Diff(y);
    if a < b {
      DiffWindowSum(y, a, b - 1);
      assert d[a..b][..b - a - 1] == d[a..b - 1];
    }
  }

  /** `cumsum` undoes `diff`: the running totals of the differences recover the series less its first value. */
  lemma CumSumOfDiff(y: seq<real>, i: nat)
    requires i + 1 < |y|
    ensures CumSum(Diff(y))[i] == y[i + 1] - y[0]
  {
    CumSumIsPrefixSum(Diff(y), i);
    DiffWindowSum(y, 0, i + 1);
    assert Diff(y)[..i + 1] == Diff(y)[0..i + 1];
  }

  /** A window of equal values has that value as its sum times its length. */
  lemma {:induction false} SumConstant(s: seq<real>, c: real)
    requires forall i :: 0 <= i < |s| ==> s[i] == c
    ensures Sum(s) == (|s| as real) * c
    decreases |s|
  {
    if s != [] {
      SumConstant(s[..|s| - 1], c);
    }
  }

  /** A non-empty window of equal values has that value as its mean. */
  lemma MeanConstant(s: seq<real>, c: real)
    requires s != []
    requires forall i :: 0 <= i < |s| ==> s[i] == c
    ensures Mean(s) == c
  {
    SumConstant(s, c);
    var n := |s| as real;
    assert Sum(s) == n * c;
    assert (n * c) / n == c;
  }
}
