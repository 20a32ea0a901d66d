/** Shared value types and sequence helpers used by every service model. */
module Base {

  /** A value that may be absent: Python's None, or a NaN cell of a DataFrame. */
  datatype Option<T> = None | Some(value: T) {
    function GetOr(default: T): T {
      match this
      case Some(v) => v
      case None => default
    }
  }

  /** `safe_float(v, d)`: a missing or NaN value becomes the default. */
  function OrElse(x: Option<real>, d: real): real {
    x.GetOr(d)
  }

  /** IEEE comparison with NaN: false whenever either side is undefined. */
  predicate Gt(a: Option<real>, b: Option<real>) {
    a.Some? && b.Some? && a.value > b.value
  }

  predicate Lt(a: Option<real>, b: Option<real>) {
    a.Some? && b.Some? && a.value < b.value
  }

  function Sum(s: seq<real>): real {
    if s == [] then 0.0 else Sum(s[..|s| - 1]) + s[|s| - 1]
  }

  /** `Sum` over a sequence with one more element at the end. */
  lemma SumAppend(s: seq<real>, x: real)
    ensures Sum(s + [x]) == Sum(s) + x
  {
    assert (s + [x])[..|s|] == s;
  }

  /** Bounds on every element bound the sum. */
  lemma {:induction false} SumBounds(s: seq<real>, lo: real, hi: real)
    requires forall i :: 0 <= i < |s| ==> lo <= s[i] <= hi
    ensures (|s| as real) * lo <= Sum(s) <= (|s| as real) * hi
    decreases |s|
  {
    if s != [] {
      SumBounds(s[..|s| - 1], lo, hi);
    }
  }

  /** The sum is monotone in every element. */
  lemma {:induction false} SumMonotone(a: seq<real>, b: seq<real>)
    requires |a| == |b|
    requires forall i :: 0 <= i < |a| ==> a[i] <= b[i]
    ensures Sum(a) <= Sum(b)
    decreases |a|
  {
    if a != [] {
      SumMonotone(a[..|a| - 1], b[..|b| - 1]);
    }
  }

  /** Arithmetic mean of a non-empty window (`Series.mean()` without missing values). */
  function Mean(s: seq<real>): real
    requires |s| > 0
  {
    Sum(s) / (|s| as real)
  }

  /** The mean lies between any lower and upper bound of the elements. */
  lemma MeanBounds(s: seq<real>, lo: real, hi: real)
    requires |s| > 0
    requires forall i :: 0 <= i < |s| ==> lo <= s[i] <= hi
    ensures lo <= Mean(s) <= hi
  {
    SumBounds(s, lo, hi);
    var n := |s| as real;
    assert Mean(s) * n == Sum(s);
  }

  /** The mean is monotone in every element. */
  lemma MeanMonotone(a: seq<real>, b: seq<real>)
    requires |a| == |b| > 0
    requires forall i :: 0 <= i < |a| ==> a[i] <= b[i]
    ensures Mean(a) <= Mean(b)
  {
    SumMonotone(a, b);
    var n := |a| as real;
    assert Mean(a) * n == Sum(a);
    assert Mean(b) * n == Sum(b);
  }

  function Min(a: real, b: real): real { if a <= b then a else b }
  function Max(a: real, b: real): real { if a >= b then a else b }
  function Clamp(x: real, lo: real, hi: real): real { Max(lo, Min(hi, x)) }

  /** Largest element of a non-empty sequence (`Series.max()`). */
  function SeqMax(s: seq<real>): (m: real)
    requires |s| > 0
    ensures forall i :: 0 <= i < |s| ==> s[i] <= m
    ensures exists i :: 0 <= i < |s| && s[i] == m
  {
    if |s| == 1 then s[0]
    else
      var m0 := SeqMax(s[..|s| - 1]);
      assert forall i :: 0 <= i < |s| - 1 ==> s[..|s| - 1][i] == s[i];
      Max(m0, s[|s| - 1])
  }

  /** Smallest element of a non-empty sequence (`Series.min()`). */
  function SeqMin(s: seq<real>): (m: real)
    requires |s| > 0
    ensures forall i :: 0 <= i < |s| ==> m <= s[i]
    ensures exists i :: 0 <= i < |s| && s[i] == m
  {
    if |s| == 1 then s[0]
    else
      var m0 := SeqMin(s[..|s| - 1]);
      assert forall i :: 0 <= i < |s| - 1 ==> s[..|s| - 1][i] == s[i];
      Min(m0, s[|s| - 1])
  }

  /** Python's `s[:n]`, including negative `n` (counted from the end). */
  function PyTake<T>(s: seq<T>, n: int): (r: seq<T>)
    ensures n >= 0 ==> |r| == if n <= |s| then n else |s|
    ensures n < 0 ==> |r| == if -n <= |s| then |s| + n else 0
    ensures r <= s
  {
    if n >= 0 then (if n <= |s| then s[..n] else s)
    else if -n <= |s| then s[..|s| + n] else []
  }

  /** Python's `s[-n:]`: for n > 0 the last n elements, for n <= 0 the slice `s[|n|:]`. */
  function PyLast<T>(s: seq<T>, n: int): (r: seq<T>)
    ensures n > 0 ==> |r| == if n <= |s| then n else |s|
    ensures n == 0 ==> r == s
  {
    if n > 0 then (if n <= |s| then s[|s| - n..] else s)
    else if -n <= |s| then s[-n..] else []
  }

  /** Keeps the elements satisfying `p`, in order (a Python list comprehension with a guard). */
  function Filter<T>(s: seq<T>, p: T -> bool): (r: seq<T>)
    ensures |r| <= |s|
    ensures forall x :: x in r ==> x in s && p(x)
    ensures forall x :: x in s && p(x) ==> x in r
  {
    if s == [] then [] else
    var rest := Filter(s[..|s| - 1], p);
    if p(s[|s| - 1]) then rest + [s[|s| - 1]] else rest
  }

  /** `r` is obtained from `s` by deleting elements, keeping the order of the rest. */
  predicate IsSubsequence<T(==)>(r: seq<T>, s: seq<T>)
    decreases |s|
  {
    if r == [] then true
    else if s == [] then false
    else
      (r[|r| - 1] == s[|s| - 1] && IsSubsequence(r[..|r| - 1], s[..|s| - 1]))
      || IsSubsequence(r, s[..|s| - 1])
  }

  /** The filtered sequence keeps the input order. */
  lemma {:induction false} FilterIsSubsequence<T>(s: seq<T>, p: T -> bool)
    ensures IsSubsequence(Filter(s, p), s)
    decreases |s|
  {
    if s != [] {
      FilterIsSubsequence(s[..|s| - 1], p);
      var r := Filter(s, p);
      if p(s[|s| - 1]) {
        assert r[..|r| - 1] == Filter(s[..|s| - 1], p);
      }
    }
  }

  lemma FilterAppend<T>(s: seq<T>, x: T, p: T -> bool)
    ensures Filter(s + [x], p) == if p(x) then Filter(s, p) + [x] else Filter(s, p)
  {
    assert (s + [x])[..|s + [x]| - 1] == s;
  }

  /** Number of elements satisfying `p`. */
  function Count<T>(s: seq<T>, p: T -> bool): nat {
    |Filter(s, p)|
  }

  /** The defined values of a column (pandas skips NaN). */
  function Defined(xs: seq<Option<real>>): (r: seq<real>)
    ensures |r| <= |xs|
    ensures r == [] <==> forall i :: 0 <= i < |xs| ==> xs[i].None?
  {
    if xs == [] then []
    else
      var rest := Defined(xs[..|xs| - 1]);
      assert forall i :: 0 <= i < |xs| - 1 ==> xs[..|xs| - 1][i] == xs[i];
      if xs[|xs| - 1].Some? then rest + [xs[|xs| - 1].value] else rest
  }

  /** Exactly the defined values are kept. */
  lemma {:induction false} DefinedMembers(xs: seq<Option<real>>, v: real)
    ensures v in Defined(xs) <==> Some(v) in xs
    decreases |xs|
  {
    if xs != [] {
      var init := xs[..|xs| - 1];
      DefinedMembers(init, v);
      assert xs == init + [xs[|xs| - 1]];
    }
  }

  /** `Series.mean()`: NaN when no value is defined. */
  function MeanDefined(xs: seq<Option<real>>): (m: Option<real>)
    ensures m.None? <==> forall i :: 0 <= i < |xs| ==> xs[i].None?
  {
    var d := Defined(xs);
    if d == [] then None else Some(Mean(d))
  }

  // ---- float64 values with infinities ----

  /**
   * A float64 as numpy holds it after arithmetic: a finite value, an infinity
   * or NaN. Signed zeros are not distinguished.
   */
  datatype Float = Finite(value: real) | PosInf | NegInf | NotANumber

  /** The float a DataFrame cell holds: NaN where the value is undefined. */
  function AsFloat(x: Option<real>): (f: Float)
    ensures f.Finite? <==> x.Some?
    ensures f.Finite? ==> f.value == x.value
  {
    if x.Some? then Finite(x.value) else NotANumber
  }

  /**
   * numpy's `a / b` on two finite floats: a zero divisor gives the infinity
   * of the numerator's sign, and `0 / 0` gives NaN.
   */
  function FDiv(a: real, b: real): (q: Float)
    ensures q.Finite? <==> b != 0.0
    ensures q.Finite? ==> q.value * b == a
    ensures q == PosInf <==> b == 0.0 && a > 0.0
    ensures q == NegInf <==> b == 0.0 && a < 0.0
    ensures q == NotANumber <==> b == 0.0 && a == 0.0
  {
    if b != 0.0 then Finite(a / b)
    else if a > 0.0 then PosInf
    else if a < 0.0 then NegInf
    else NotANumber
  }

  /** `x * k` for a positive finite factor: the infinities and NaN are kept. */
  function FScale(x: Float, k: real): (r: Float)
    requires k > 0.0
    ensures r.Finite? <==> x.Finite?
    ensures !x.Finite? ==> r == x
    ensures r.Finite? ==> (r.value > 0.0 <==> x.value > 0.0) && (r.value < 0.0 <==> x.value < 0.0)
  {
    if x.Finite? then
      var v := x.value * k;
      assert x.value > 0.0 ==> v > 0.0;
      assert x.value < 0.0 ==> v < 0.0;
      Finite(v)
    else x
  }

  /** `x + y`: NaN when either is NaN or the two are opposite infinities; otherwise an infinity wins. */
  function FAdd(x: Float, y: Float): (r: Float)
    ensures r == NotANumber <==>
      x == NotANumber || y == NotANumber || (x == PosInf && y == NegInf) || (x == NegInf && y == PosInf)
    ensures r == PosInf <==> (x == PosInf || y == PosInf) && (x.Finite? || y.Finite? || x == y)
    ensures r == NegInf <==> (x == NegInf || y == NegInf) && (x.Finite? || y.Finite? || x == y)
    ensures r.Finite? <==> x.Finite? && y.Finite?
    ensures r.Finite? ==> r.value - y.value == x.value
  {
    if x == NotANumber || y == NotANumber then NotANumber
    else if x == PosInf then (if y == NegInf then NotANumber else PosInf)
    else if x == NegInf then (if y == PosInf then NotANumber else NegInf)
    else if y.Finite? then Finite(x.value + y.value)
    else y
  }

  /** `x < y` on floats: false whenever either side is NaN. */
  predicate FLess(x: Float, y: Float) {
    match (x, y)
    case (Finite(a), Finite(b)) => a < b
    case (NegInf, _) => y.Finite? || y == PosInf
    case (_, PosInf) => x.Finite?
    case _ => false
  }

  /**
   * `(now - base) / base * 100` in float64: the percentage change from `base`
   * to `now`; a zero base gives the infinity of the move's sign, or NaN.
   */
  function PercentChange(now: real, base: real): (r: Float)
    ensures r.Finite? <==> base != 0.0
    ensures r.Finite? ==> r.value * base == (now - base) * 100.0
    ensures r.Finite? && base > 0.0 ==> (r.value > 0.0 <==> now > base) && (r.value < 0.0 <==> now < base)
    ensures base == 0.0 ==> (r == PosInf <==> now > 0.0) && (r == NegInf <==> now < 0.0)
    ensures r == NotANumber <==> base == 0.0 && now == 0.0
  {
    var q := FDiv(now - base, base);
    if q.Finite? then
      ScaledQuotient(q.value, now - base, base);
      FScale(q, 100.0)
    else FScale(q, 100.0)
  }

  lemma ScaledQuotient(v: real, d: real, base: real)
    requires base != 0.0 && v * base == d
    ensures v * 100.0 * base == d * 100.0
    ensures base > 0.0 ==> (v > 0.0 <==> d > 0.0) && (v < 0.0 <==> d < 0.0)
  {
    if base > 0.0 {
      if v > 0.0 { assert v * base > 0.0; }
      if v < 0.0 { assert (-v) * base > 0.0; }
      if v == 0.0 { assert v * base == 0.0; }
    }
  }

  /** The finite values of a float column, in order. */
  function FiniteValues(xs: seq<Float>): (r: seq<real>)
    ensures |r| <= |xs|
    ensures r == [] <==> forall i :: 0 <= i < |xs| ==> !xs[i].Finite?
  {
    if xs == [] then []
    else
      var rest := FiniteValues(xs[..|xs| - 1]);
      assert forall i :: 0 <= i < |xs| - 1 ==> xs[..|xs| - 1][i] == xs[i];
      if xs[|xs| - 1].Finite? then rest + [xs[|xs| - 1].value] else rest
  }

  /**
   * `Series.mean()` of a float column: NaN is skipped; an infinity makes the
   * sum, and so the mean, infinite; both infinities give NaN, as does a
   * column with nothing but NaN.
   */
  function FMean(xs: seq<Float>): (m: Float)
    ensures m == NotANumber <==>
      (PosInf in xs && NegInf in xs) || forall i :: 0 <= i < |xs| ==> xs[i] == NotANumber
    ensures m == PosInf <==> PosInf in xs && NegInf !in xs
    ensures m == NegInf <==> NegInf in xs && PosInf !in xs
    ensures m.Finite? ==> FiniteValues(xs) != [] && m.value == Mean(FiniteValues(xs))
  {
    if PosInf in xs && NegInf in xs then NotANumber
    else if PosInf in xs then PosInf
    else if NegInf in xs then NegInf
    else
      var d := FiniteValues(xs);
      if d == [] then
        assert forall i :: 0 <= i < |xs| ==> xs[i] == NotANumber by {
          forall i | 0 <= i < |xs| ensures xs[i] == NotANumber {
            assert xs[i] in xs;
          }
        }
        NotANumber
      else Finite(Mean(d))
  }

  /** A float column read from an optional one. */
  function AsFloats(xs: seq<Option<real>>): (r: seq<Float>)
    ensures |r| == |xs|
    ensures forall i :: 0 <= i < |xs| ==> r[i] == AsFloat(xs[i])
  {
    seq(|xs|, i requires 0 <= i < |xs| => AsFloat(xs[i]))
  }

  /** On a column without infinities the float mean is the mean of the defined values. */
  lemma {:induction false} FMeanOfDefined(xs: seq<Option<real>>)
    ensures FMean(AsFloats(xs)) == AsFloat(MeanDefined(xs))
  {
    FiniteValuesOfDefined(xs);
  }

  lemma {:induction false} FiniteValuesOfDefined(xs: seq<Option<real>>)
    ensures FiniteValues(AsFloats(xs)) == Defined(xs)
    decreases |xs|
  {
    if xs != [] {
      var init := xs[..|xs| - 1];
      FiniteValuesOfDefined(init);
      assert AsFloats(xs)[..|xs| - 1] == AsFloats(init);
    }
  }
}
