/**
 * Helpers over ordered numeric series: Python's `sum`, `abs`, `max`, `min`,
 * negative-index slicing and `deque(maxlen=...)` appends.
 */
module Series {

  function Abs(x: real): (r: real)
    ensures r >= 0.0 && (r == x || r == -x)
  {
    if x < 0.0 then -x else x
  }

  /** Python's `sum` over a list of floats. */
  function Sum(s: seq<real>): real
    decreases |s|
  {
    if s == [] then 0.0 else Sum(s[..|s| - 1]) + s[|s| - 1]
  }

  /** Python's `max` of a non-empty list. */
  function Max(s: seq<real>): (r: real)
    requires |s| > 0
    ensures r in s
    ensures forall i :: 0 <= i < |s| ==> s[i] <= r
    decreases |s|
  {
    if |s| == 1 then s[0]
    else
      var m := Max(s[..|s| - 1]);
      if s[|s| - 1] > m then s[|s| - 1] else m
  }

  /** Python's `min` of a non-empty list. */
  function Min(s: seq<real>): (r: real)
    requires |s| > 0
    ensures r in s
    ensures forall i :: 0 <= i < |s| ==> r <= s[i]
    decreases |s|
  {
    if |s| == 1 then s[0]
    else
      var m := Min(s[..|s| - 1]);
      if s[|s| - 1] < m then s[|s| - 1] else m
  }

  /**
   * Python's `s[-n:]`: the last `n` elements, or all of `s` when `n` exceeds
   * its length. Note that `s[-0:]` is the WHOLE list in Python.
   */
  function LastN<T>(s: seq<T>, n: nat): (r: seq<T>)
    ensures n == 0 || n >= |s| ==> r == s
    ensures 0 < n <= |s| ==> |r| == n
    ensures r == s[|s| - |r|..]
  {
    if n == 0 || n >= |s| then s else s[|s| - n..]
  }

  /** Python's `s[-a:-b]` for `a > b > 0`, with both bounds clamped at the front. */
  function SliceFromEnd<T>(s: seq<T>, a: nat, b: nat): (r: seq<T>)
    requires a > b > 0
    ensures |s| >= a ==> |r| == a - b
    ensures b < |s| ==> |r| > 0
    ensures |s| <= b ==> r == []
  {
    var start := if |s| >= a then |s| - a else 0;
    var stop := if |s| >= b then |s| - b else 0;
    s[start..stop]
  }

  /**
   * `deque(maxlen=cap).append(x)` on a deque holding `s`: the last
   * min(|s| + 1, cap) elements of `s + [x]`, the oldest evicted first.
   */
  function BoundedAppend<T>(s: seq<T>, x: T, cap: nat): (r: seq<T>)
    ensures |r| == if |s| + 1 <= cap then |s| + 1 else cap
  {
    var t := s + [x];
    if |t| <= cap then t else t[|t| - cap..]
  }

  /**
   * What a bounded append holds: the newest min(|s| + 1, cap) items, ending
   * with `x`; the whole of `s` while there is room, and `s` without its oldest
   * item once `s` filled the buffer.
   */
  lemma BoundedAppendContents<T>(s: seq<T>, x: T, cap: nat)
    ensures var r := BoundedAppend(s, x, cap);
      && r == (s + [x])[|s| + 1 - |r|..]
      && (cap > 0 ==> r[|r| - 1] == x)
      && (|s| < cap ==> r == s + [x])
      && (0 < cap == |s| ==> r == s[1..] + [x])
  {
  }

  /** A buffer that holds the last `cap` items of a stream still does after one more append. */
  lemma BoundedAppendKeepsLastN<T>(s: seq<T>, x: T, cap: nat)
    requires cap > 0
    ensures BoundedAppend(LastN(s, cap), x, cap) == LastN(s + [x], cap)
  {
    var t := s + [x];
    if |s| >= cap {
      assert LastN(s, cap)[1..] + [x] == t[|t| - cap..];
    }
  }

  /**
   * `x * k`, for thresholds such as `avg * 1.25`: naming the product keeps
   * contracts that compare against a scaled bound cheap to check.
   */
  function Times(x: real, k: real): real {
    x * k
  }

  /** No element occurs twice. */
  predicate Distinct<T(==)>(s: seq<T>) {
    forall i, j :: 0 <= i < j < |s| ==> s[i] != s[j]
  }

  /** Python's `all(s[i] > s[i - 1] for i in range(1, len(s)))`. */
  predicate StrictlyIncreasing(s: seq<real>) {
    forall i :: 1 <= i < |s| ==> s[i - 1] < s[i]
  }

  lemma SumAppend(s: seq<real>, x: real)
    ensures Sum(s + [x]) == Sum(s) + x
  {
    assert (s + [x])[..|s|] == s;
  }

  lemma {:induction false} SumConcat(a: seq<real>, b: seq<real>)
    ensures Sum(a + b) == Sum(a) + Sum(b)
    decreases |b|
  {
    if b == [] {
      assert a + b == a;
    } else {
      var b' := b[..|b| - 1];
      assert a + b == (a + b') + [b[|b| - 1]];
      SumAppend(a + b', b[|b| - 1]);
      SumConcat(a, b');
      assert b == b' + [b[|b| - 1]];
      SumAppend(b', b[|b| - 1]);
    }
  }

  /** Every element in [lo, hi] puts the sum in [n * lo, n * hi]. */
  lemma {:induction false} SumBounds(s: seq<real>, lo: real, hi: real)
    requires forall i :: 0 <= i < |s| ==> lo <= s[i] <= hi
    ensures |s| as real * lo <= Sum(s) <= |s| as real * hi
    decreases |s|
  {
    if s != [] {
      SumBounds(s[..|s| - 1], lo, hi);
    }
  }

  lemma {:induction false} SumNonnegative(s: seq<real>)
    requires forall i :: 0 <= i < |s| ==> s[i] >= 0.0
    ensures Sum(s) >= 0.0
    decreases |s|
  {
    if s != [] {
      SumNonnegative(s[..|s| - 1]);
    }
  }

  /** The sum does not depend on the order of the elements. */
  lemma {:induction false} SumPermutation(a: seq<real>, b: seq<real>)
    requires multiset(a) == multiset(b)
    ensures Sum(a) == Sum(b)
    decreases |a|
  {
    if a == [] {
      assert |b| == |multiset(b)| == 0;
    } else {
      var x := a[|a| - 1];
      var a' := a[..|a| - 1];
      assert a == a' + [x];
      assert x in multiset(b);
      var j :| 0 <= j < |b| && b[j] == x;
      var b' := b[..j] + b[j + 1..];
      assert b == b[..j] + [x] + b[j + 1..];
      assert multiset(a) == multiset(a') + multiset{x};
      assert multiset(b) == multiset(b[..j]) + multiset{x} + multiset(b[j + 1..]);
      assert multiset(b') == multiset(b[..j]) + multiset(b[j + 1..]);
      assert multiset(a') == multiset(a) - multiset{x};
      assert multiset(b') == multiset(b) - multiset{x};
      SumPermutation(a', b');
      SumConcat(b[..j] + [x], b[j + 1..]);
      SumAppend(b[..j], x);
      SumConcat(b[..j], b[j + 1..]);
    }
  }

  /** Scaling every element by `k` scales the sum by `k`. */
  lemma {:induction false} SumScale(s: seq<real>, k: real)
    ensures Sum(seq(|s|, i requires 0 <= i < |s| => k * s[i])) == k * Sum(s)
    decreases |s|
  {
    var t := seq(|s|, i requires 0 <= i < |s| => k * s[i]);
    if s != [] {
      var s' := s[..|s| - 1];
      var t' := seq(|s'|, i requires 0 <= i < |s'| => k * s'[i]);
      assert forall i :: 0 <= i < |t'| ==> t[..|t| - 1][i] == t'[i];
      assert t[..|t| - 1] == t';
      SumScale(s', k);
    }
  }
}
