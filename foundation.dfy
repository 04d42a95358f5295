/** The small part of Swift's standard library and of Foundation that the
    engine relies on: optionals, the elementary real functions, integer and
    floating-point remainders, `reduce(0, +)` and `removeAll(where:)`. */
module Foundation {

  datatype Option<T> = None | Some(value: T)

  /** The platform's elementary functions. Their numerical behaviour is not
      modelled: every member that needs them takes them as a parameter, and a
      proof that needs a fact about them states it as a precondition. */
  datatype Elementary = Elementary(
    pi: real,
    sin: real -> real,
    cos: real -> real,
    exp: real -> real,
    sqrt: real -> real)

  /** The one fact about `exp` the score pipeline needs. */
  ghost predicate ExpPositive(e: Elementary) {
    forall x :: e.exp(x) > 0.0
  }

  /** `sqrt` returns the non-negative square root of a non-negative argument
      (exactly: rounding is not modelled). */
  ghost predicate SqrtExact(e: Elementary) {
    forall x :: x >= 0.0 ==> e.sqrt(x) >= 0.0 && e.sqrt(x) * e.sqrt(x) == x
  }

  /** Under `SqrtExact`, the square root is the only non-negative number whose
      square is its argument. */
  lemma SqrtUnique(e: Elementary, x: real, s: real)
    requires SqrtExact(e) && s >= 0.0 && s * s == x
    ensures e.sqrt(x) == s
  {
    var t := e.sqrt(x);
    assert t >= 0.0 && t * t == x;
    assert (t - s) * (t + s) == t * t - s * s;
    if t + s == 0.0 {
      assert t == 0.0 && s == 0.0;
    } else {
      ZeroProduct(t - s, t + s);
    }
  }

  /** A product with a positive factor is zero only when the other one is. */
  lemma ZeroProduct(a: real, b: real)
    requires a * b == 0.0 && b > 0.0
    ensures a == 0.0
  {
  }

  /** Cancelling a positive factor from both sides of an equation. */
  lemma CancelPositive(a: real, b: real, c: real)
    requires a * c == b * c && c > 0.0
    ensures a == b
  {
    assert (a - b) * c == a * c - b * c;
    ZeroProduct(a - b, c);
  }

  function Min(a: real, b: real): (r: real)
    ensures r <= a && r <= b && (r == a || r == b)
  {
    if b < a then b else a
  }

  function Max(a: real, b: real): (r: real)
    ensures r >= a && r >= b && (r == a || r == b)
  {
    if b >= a then b else a
  }

  function Abs(x: real): (r: real)
    ensures r >= 0.0 && (r == x || r == -x)
  {
    if x < 0.0 then -x else x
  }

  /** `Int(x)` for a floating-point `x`: truncation toward zero. */
  function Trunc(x: real): (n: int)
    ensures x >= 0.0 ==> 0 <= n && n as real <= x < n as real + 1.0
    ensures x < 0.0 ==> n <= 0 && n as real - 1.0 < x <= n as real
  {
    if x >= 0.0 then x.Floor else -((-x).Floor)
  }

  /** Swift's `%` on `Int`: the remainder of truncating division, which takes
      the sign of the dividend (Dafny's own `%` is Euclidean). */
  function Rem(a: int, b: int): (r: int)
    requires b > 0
    ensures a >= 0 ==> 0 <= r < b
    ensures a < 0 ==> -b < r <= 0
  {
    if a >= 0 then a % b else -((-a) % b)
  }

  /** `x.truncatingRemainder(dividingBy: d)`, which is also C's `fmod(x, d)`. */
  function TruncatingRemainder(x: real, d: real): (r: real)
    requires d > 0.0
    ensures x >= 0.0 ==> 0.0 <= r < d
    ensures x < 0.0 ==> -d < r <= 0.0
  {
    var q := Trunc(x / d) as real;
    RemainderBounds(x, d, q);
    x - q * d
  }

  lemma RemainderBounds(x: real, d: real, q: real)
    requires d > 0.0 && q == Trunc(x / d) as real
    ensures x >= 0.0 ==> 0.0 <= x - q * d < d
    ensures x < 0.0 ==> -d < x - q * d <= 0.0
  {
    QuotientFacts(x, d);
    if x >= 0.0 {
      FractionBounds(x, d, x / d, q);
    } else {
      FractionBounds(-x, d, -(x / d), -q);
      assert -x - (-q) * d == -(x - q * d);
    }
  }

  /** With y = x/d written as a plain product fact, the remainder x - q*d is
      (y - q)*d, which lies in [0, d) once q <= y < q + 1. */
  lemma FractionBounds(x: real, d: real, y: real, q: real)
    requires d > 0.0 && y * d == x && q <= y < q + 1.0
    ensures 0.0 <= x - q * d < d
  {
    var f := y - q;
    FractionScaled(f, d);
    Distributes(y, q, d);
    assert x - q * d == f * d;
  }

  lemma QuotientFacts(x: real, d: real)
    requires d > 0.0
    ensures (x / d) * d == x && (-(x / d)) * d == -x
    ensures x >= 0.0 ==> x / d >= 0.0
    ensures x < 0.0 ==> x / d < 0.0
  {
  }

  lemma Distributes(a: real, b: real, d: real)
    ensures a * d - b * d == (a - b) * d
  {
  }

  lemma FractionScaled(f: real, d: real)
    requires 0.0 <= f < 1.0 && d > 0.0
    ensures 0.0 <= f * d < d
  {
    assert d - f * d == (1.0 - f) * d;
  }

  /** `xs.reduce(0, +)`. */
  function Sum(xs: seq<real>): real
  {
    if xs == [] then 0.0 else Sum(xs[..|xs| - 1]) + xs[|xs| - 1]
  }

  /** The sum of the last `|xs| + 1` elements is the sum of the first plus the last. */
  lemma SumAppend(xs: seq<real>, x: real)
    ensures Sum(xs + [x]) == Sum(xs) + x
    ensures SumSquares(xs + [x]) == SumSquares(xs) + x * x
  {
    assert (xs + [x])[..|xs|] == xs;
  }

  /** `xs.reduce(0, +) / CGFloat(xs.count)`, with 0 for an empty array. */
  function Mean(xs: seq<real>): real
  {
    if xs == [] then 0.0 else Sum(xs) / (|xs| as real)
  }

  lemma {:induction false} SumNonNegative(xs: seq<real>)
    requires forall i :: 0 <= i < |xs| ==> xs[i] >= 0.0
    ensures Sum(xs) >= 0.0
  {
    if xs != [] {
      SumNonNegative(xs[..|xs| - 1]);
    }
  }

  /** The mean of non-negative numbers is non-negative. */
  lemma MeanNonNegative(xs: seq<real>)
    requires forall i :: 0 <= i < |xs| ==> xs[i] >= 0.0
    ensures Mean(xs) >= 0.0
  {
    SumNonNegative(xs);
    if xs != [] {
      RatioNonNegative(Sum(xs), |xs| as real);
    }
  }

  lemma RatioNonNegative(a: real, b: real)
    requires a >= 0.0 && b > 0.0
    ensures a / b >= 0.0
  {
    assert a / b * b == a;
  }

  lemma MeanTimesCount(xs: seq<real>)
    ensures Mean(xs) * (|xs| as real) == Sum(xs)
  {
  }

  /** `xs.reduce(0) { $0 + pow($1 - c, 2) }`: the sum of squared deviations from `c`. */
  function SumSqDev(xs: seq<real>, c: real): real
  {
    if xs == [] then 0.0 else SumSqDev(xs[..|xs| - 1], c) + (xs[|xs| - 1] - c) * (xs[|xs| - 1] - c)
  }

  lemma {:induction false} SumSqDevNonNegative(xs: seq<real>, c: real)
    ensures SumSqDev(xs, c) >= 0.0
  {
    if xs != [] {
      SumSqDevNonNegative(xs[..|xs| - 1], c);
      var d := xs[|xs| - 1] - c;
      assert d * d >= 0.0;
    }
  }

  /** Expanding the square: the sum of squared deviations from `c` is
      sum(x^2) - 2*c*sum(x) + n*c^2. */
  function SumSquares(xs: seq<real>): real
  {
    if xs == [] then 0.0 else SumSquares(xs[..|xs| - 1]) + xs[|xs| - 1] * xs[|xs| - 1]
  }

  lemma {:induction false} SumSqDevExpanded(xs: seq<real>, c: real)
    ensures SumSqDev(xs, c) == SumSquares(xs) - 2.0 * c * Sum(xs) + (|xs| as real) * c * c
  {
    if xs != [] {
      var init, x := xs[..|xs| - 1], xs[|xs| - 1];
      SumSqDevExpanded(init, c);
      var n, s := |init| as real, Sum(init);
      assert Sum(xs) == s + x;
      assert 2.0 * c * (s + x) == 2.0 * c * s + 2.0 * c * x;
      assert (x - c) * (x - c) == x * x - 2.0 * c * x + c * c;
      assert (n + 1.0) * c * c == n * c * c + c * c;
    }
  }

  /** `s.removeAll(where: drop)` on an array value: the elements for which
      `drop` is false, in their original order. */
  function RemoveAll<T(!new)>(s: seq<T>, drop: T -> bool): (r: seq<T>)
    ensures |r| <= |s|
    ensures forall x :: x in r <==> x in s && !drop(x)
  {
    if s == [] then []
    else RemoveAll(s[..|s| - 1], drop) + (if drop(s[|s| - 1]) then [] else [s[|s| - 1]])
  }

  /** Filtering distributes over concatenation: this is what "survivors keep
      their relative order" means. */
  lemma {:induction false} RemoveAllAppend<T(!new)>(s: seq<T>, t: seq<T>, drop: T -> bool)
    ensures RemoveAll(s + t, drop) == RemoveAll(s, drop) + RemoveAll(t, drop)
  {
    if t == [] {
      assert s + t == s;
    } else {
      var t', x := t[..|t| - 1], t[|t| - 1];
      var last := if drop(x) then [] else [x];
      calc {
        RemoveAll(s + t, drop);
        == { assert (s + t)[..|s + t| - 1] == s + t'; assert (s + t)[|s + t| - 1] == x; }
        RemoveAll(s + t', drop) + last;
        == { RemoveAllAppend(s, t', drop); }
        (RemoveAll(s, drop) + RemoveAll(t', drop)) + last;
        RemoveAll(s, drop) + (RemoveAll(t', drop) + last);
        RemoveAll(s, drop) + RemoveAll(t, drop);
      }
    }
  }

  lemma {:induction false} RemoveAllNothingDropped<T(!new)>(s: seq<T>, drop: T -> bool)
    requires forall x :: x in s ==> !drop(x)
    ensures RemoveAll(s, drop) == s
  {
    if s != [] {
      RemoveAllNothingDropped(s[..|s| - 1], drop);
      assert s == s[..|s| - 1] + [s[|s| - 1]];
    }
  }

  lemma RemoveAllIdempotent<T(!new)>(s: seq<T>, drop: T -> bool)
    ensures RemoveAll(RemoveAll(s, drop), drop) == RemoveAll(s, drop)
  {
    RemoveAllNothingDropped(RemoveAll(s, drop), drop);
  }

  /** The indices `lo <= i < k` at which `holds` is true: what a counter
      incremented once per qualifying loop iteration counts. */
  function Indices(holds: nat -> bool, lo: nat, k: nat): set<nat>
  {
    set i: nat | lo <= i < k && holds(i)
  }

  lemma IndicesEmpty(holds: nat -> bool, lo: nat)
    ensures Indices(holds, lo, lo) == {}
  {
  }

  /** Extending the range by one index adds it exactly when it qualifies. */
  lemma IndicesStep(holds: nat -> bool, lo: nat, k: nat)
    requires lo <= k
    ensures |Indices(holds, lo, k + 1)| == |Indices(holds, lo, k)| + (if holds(k) then 1 else 0)
  {
    if holds(k) {
      assert Indices(holds, lo, k + 1) == Indices(holds, lo, k) + {k};
    } else {
      assert Indices(holds, lo, k + 1) == Indices(holds, lo, k);
    }
  }

  /** a/b lies in [0,1] when 0 <= a <= b and b > 0. */
  lemma RatioInUnit(a: real, b: real)
    requires 0.0 <= a <= b && b > 0.0
    ensures 0.0 <= a / b <= 1.0
  {
    assert a / b * b == a;
  }
}
