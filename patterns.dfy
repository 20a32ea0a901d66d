/** Chart pattern detection over the indicator frame, and the pattern summary. */
module Patterns {
  import opened Base
  import opened Indicators

  datatype Kind =
    | GoldenCrossPattern | DeathCrossPattern
    | OversoldPattern | OverboughtPattern
    | MacdBullishCrossover | MacdBearishCrossover
    | BollingerSqueeze
    | HigherHighs | LowerLows
    | VolumeSpike
    | NearResistance | NearSupport

  /** The `type` of a pattern; any other text counts as neither bullish nor bearish. */
  datatype PatternType = BullishType | BearishType | NeutralType

  /** The `strength` of a pattern; any other text weighs 1. */
  datatype Strength = Strong | Moderate | Weak | OtherStrength

  datatype Pattern = Pattern(kind: Kind, patternType: PatternType, strength: Strength)

  /** The type and strength `detect_patterns` attaches to each pattern. */
  function PatternOf(k: Kind): (p: Pattern)
    ensures p.kind == k
  {
    match k
    case GoldenCrossPattern => Pattern(k, BullishType, Strong)
    case DeathCrossPattern => Pattern(k, BearishType, Strong)
    case OversoldPattern => Pattern(k, BullishType, Moderate)
    case OverboughtPattern => Pattern(k, BearishType, Moderate)
    case MacdBullishCrossover => Pattern(k, BullishType, Moderate)
    case MacdBearishCrossover => Pattern(k, BearishType, Moderate)
    case BollingerSqueeze => Pattern(k, NeutralType, Moderate)
    case HigherHighs => Pattern(k, BullishType, Weak)
    case LowerLows => Pattern(k, BearishType, Weak)
    case VolumeSpike => Pattern(k, NeutralType, Strong)
    case NearResistance => Pattern(k, BearishType, Weak)
    case NearSupport => Pattern(k, BullishType, Weak)
  }

  // ---- the conditions, on the last two rows (NaN compares false) ----

  predicate SmaGoldenCross(prev: Row, last: Row) {
    Lt(prev.sma20, prev.sma50) && Gt(last.sma20, last.sma50)
  }

  predicate SmaDeathCross(prev: Row, last: Row) {
    Gt(prev.sma20, prev.sma50) && Lt(last.sma20, last.sma50)
  }

  predicate MacdUpCross(prev: Row, last: Row) {
    prev.macd < prev.macdSignal && last.macd > last.macdSignal
  }

  predicate MacdDownCross(prev: Row, last: Row) {
    prev.macd > prev.macdSignal && last.macd < last.macdSignal
  }

  /**
   * `(BB_Upper - BB_Lower) / Close` of one row in float64: NaN where the bands
   * are undefined; a zero close gives an infinity, or NaN for zero-width bands.
   */
  function BandWidth(r: Row): (w: Float)
    ensures w.Finite? <==> r.bands.upper.Some? && r.bands.lower.Some? && r.bar.close != 0.0
    ensures w.Finite? ==> w.value * r.bar.close == r.bands.upper.value - r.bands.lower.value
  {
    if r.bands.upper.Some? && r.bands.lower.Some? then
      FDiv(r.bands.upper.value - r.bands.lower.value, r.bar.close)
    else NotANumber
  }

  function BandWidths(rows: seq<Row>): (w: seq<Float>)
    ensures |w| == |rows|
    ensures forall i :: 0 <= i < |rows| ==> w[i] == BandWidth(rows[i])
  {
    seq(|rows|, i requires 0 <= i < |rows| => BandWidth(rows[i]))
  }

  /**
   * The latest band width is below 70% of the mean width of the last 20 rows,
   * compared as floats: a NaN side never squeezes, and an infinite mean
   * (a zero close in the window) squeezes any finite width.
   */
  predicate Squeeze(rows: seq<Row>)
    requires |rows| > 0
  {
    var avg := FMean(BandWidths(PyLast(rows, 20)));
    FLess(BandWidth(rows[|rows| - 1]), FScale(avg, 0.7))
  }

  /** Bands whose lower line is at most the upper one. */
  predicate OrderedBands(r: Row) {
    r.bands.upper.Some? && r.bands.lower.Some? ==> r.bands.lower.value <= r.bands.upper.value
  }

  /**
   * An earlier row of the window with open bands and a zero close makes the
   * mean width +inf, so any finite latest width is a squeeze.
   */
  lemma SqueezeOfZeroCloseInWindow(rows: seq<Row>, j: nat)
    requires |rows| > 0
    requires forall i :: 0 <= i < |rows| ==> OrderedBands(rows[i])
    requires |rows| - 20 <= j < |rows|
    requires rows[j].bands.upper.Some? && rows[j].bands.lower.Some?
    requires rows[j].bands.lower.value < rows[j].bands.upper.value && rows[j].bar.close == 0.0
    requires BandWidth(rows[|rows| - 1]).Finite?
    ensures Squeeze(rows)
  {
    var win := PyLast(rows, 20);
    var ws := BandWidths(win);
    var k := j - (|rows| - |win|);
    assert win[k] == rows[j];
    assert ws[k] == PosInf;
    assert PosInf in ws;
    assert NegInf !in ws by {
      forall i | 0 <= i < |ws| ensures ws[i] != NegInf {
        assert win[i] == rows[i + |rows| - |win|];
      }
    }
  }

  /** A zero latest close with ordered bands is never a squeeze: its width is +inf or NaN. */
  lemma NoSqueezeAtZeroClose(rows: seq<Row>)
    requires |rows| > 0
    requires OrderedBands(rows[|rows| - 1]) && rows[|rows| - 1].bar.close == 0.0
    ensures !Squeeze(rows)
  {
  }

  /**
   * The band widths as real division gives them, undefined at a zero close:
   * the reference the float widths agree with while no close is zero.
   */
  function FiniteWidths(rows: seq<Row>): (w: seq<Option<real>>)
    ensures |w| == |rows|
  {
    seq(|rows|, i requires 0 <= i < |rows| =>
      var r := rows[i];
      if r.bands.upper.Some? && r.bands.lower.Some? && r.bar.close != 0.0 then
        Some((r.bands.upper.value - r.bands.lower.value) / r.bar.close)
      else None)
  }

  /** With no zero close in the window, the squeeze compares against the mean of the defined widths. */
  lemma SqueezeOfNonZeroCloses(rows: seq<Row>)
    requires |rows| > 0
    requires forall i :: 0 <= i < |rows| ==> rows[i].bar.close != 0.0
    ensures var last := rows[|rows| - 1];
      var avg := MeanDefined(FiniteWidths(PyLast(rows, 20)));
      Squeeze(rows) <==>
        last.bands.upper.Some? && last.bands.lower.Some? && avg.Some? &&
        (last.bands.upper.value - last.bands.lower.value) / last.bar.close < avg.value * 0.7
  {
    var win := PyLast(rows, 20);
    assert BandWidths(win) == AsFloats(FiniteWidths(win)) by {
      forall i | 0 <= i < |win| ensures BandWidths(win)[i] == AsFloats(FiniteWidths(win))[i] {
        assert win[i] == rows[i + |rows| - |win|];
      }
    }
    FMeanOfDefined(FiniteWidths(win));
    var m := MeanDefined(FiniteWidths(win));
    assert FMean(BandWidths(win)) == AsFloat(m);
    var last := rows[|rows| - 1];
    if last.bands.upper.Some? && last.bands.lower.Some? {
      assert BandWidth(last) == Finite((last.bands.upper.value - last.bands.lower.value) / last.bar.close);
    }
  }

  /**
   * `all(highs.iloc[i] >= highs.iloc[i-1] for i in range(1, 5))` over the last
   * ten highs: only the five oldest of those ten rows are compared.
   */
  predicate RisingHighs(rows: seq<Row>)
    requires |rows| >= 10
  {
    var h := rows[|rows| - 10..];
    h[1].bar.high >= h[0].bar.high && h[2].bar.high >= h[1].bar.high &&
    h[3].bar.high >= h[2].bar.high && h[4].bar.high >= h[3].bar.high
  }

  predicate FallingLows(rows: seq<Row>)
    requires |rows| >= 10
  {
    var l := rows[|rows| - 10..];
    l[1].bar.low <= l[0].bar.low && l[2].bar.low <= l[1].bar.low &&
    l[3].bar.low <= l[2].bar.low && l[4].bar.low <= l[3].bar.low
  }

  function RecentHigh(rows: seq<Row>): real
    requires |rows| >= 20
  {
    var w := rows[|rows| - 20..];
    SeqMax(seq(20, i requires 0 <= i < 20 => w[i].bar.high))
  }

  function RecentLow(rows: seq<Row>): real
    requires |rows| >= 20
  {
    var w := rows[|rows| - 20..];
    SeqMin(seq(20, i requires 0 <= i < 20 => w[i].bar.low))
  }

  /** Position of each check in `detect_patterns`. */
  function Rank(k: Kind): nat {
    match k
    case GoldenCrossPattern => 0
    case DeathCrossPattern => 1
    case OversoldPattern => 2
    case OverboughtPattern => 3
    case MacdBullishCrossover => 4
    case MacdBearishCrossover => 5
    case BollingerSqueeze => 6
    case HigherHighs => 7
    case LowerLows => 8
    case VolumeSpike => 9
    case NearResistance => 10
    case NearSupport => 11
  }

  /** The kinds present in a list of patterns. */
  function Kinds(ps: seq<Pattern>): set<Kind> {
    set i | 0 <= i < |ps| :: ps[i].kind
  }

  /** Kinds of a concatenation. */
  lemma KindsAppend(a: seq<Pattern>, b: seq<Pattern>)
    ensures Kinds(a + b) == Kinds(a) + Kinds(b)
  {
    var ab := a + b;
    forall k | k in Kinds(a) + Kinds(b) ensures k in Kinds(ab) {
      if k in Kinds(a) {
        var i :| 0 <= i < |a| && a[i].kind == k;
        assert ab[i] == a[i];
      } else {
        var i :| 0 <= i < |b| && b[i].kind == k;
        assert ab[|a| + i] == b[i];
      }
    }
  }

  /** A kind occurs in a concatenation when it occurs in either part. */
  lemma KindsAppendMember(a: seq<Pattern>, b: seq<Pattern>, k: Kind)
    ensures k in Kinds(a + b) <==> k in Kinds(a) || k in Kinds(b)
  {
    KindsAppend(a, b);
  }

  /** Every pattern carries the type and strength of its kind. */
  predicate Canonical(ps: seq<Pattern>)
    decreases |ps|
  {
    ps == [] || (Canonical(ps[..|ps| - 1]) && ps[|ps| - 1] == PatternOf(ps[|ps| - 1].kind))
  }

  /** Every pattern comes from a check at position `lo` up to (excluding) `hi`. */
  predicate Within(ps: seq<Pattern>, lo: nat, hi: nat)
    decreases |ps|
  {
    ps == [] || (Within(ps[..|ps| - 1], lo, hi) && lo <= Rank(ps[|ps| - 1].kind) < hi)
  }

  /** Patterns appear in check order: each comes from a later check than all before it. */
  predicate Ordered(ps: seq<Pattern>)
    decreases |ps|
  {
    ps == [] || (Ordered(ps[..|ps| - 1]) && Within(ps[..|ps| - 1], 0, Rank(ps[|ps| - 1].kind)))
  }

  lemma {:induction false} CanonicalMeans(ps: seq<Pattern>)
    requires Canonical(ps)
    ensures forall i :: 0 <= i < |ps| ==> ps[i] == PatternOf(ps[i].kind)
    decreases |ps|
  {
    if ps != [] {
      var init := ps[..|ps| - 1];
      CanonicalMeans(init);
      assert forall i :: 0 <= i < |init| ==> init[i] == ps[i];
    }
  }

  lemma {:induction false} WithinMeans(ps: seq<Pattern>, lo: nat, hi: nat)
    requires Within(ps, lo, hi)
    ensures forall i :: 0 <= i < |ps| ==> lo <= Rank(ps[i].kind) < hi
    decreases |ps|
  {
    if ps != [] {
      var init := ps[..|ps| - 1];
      WithinMeans(init, lo, hi);
      assert forall i :: 0 <= i < |init| ==> init[i] == ps[i];
    }
  }

  /** In an ordered list the checks strictly increase, so no kind appears twice. */
  lemma {:induction false} OrderedMeans(ps: seq<Pattern>)
    requires Ordered(ps)
    ensures forall i, j :: 0 <= i < j < |ps| ==> Rank(ps[i].kind) < Rank(ps[j].kind)
    decreases |ps|
  {
    if ps != [] {
      var init := ps[..|ps| - 1];
      OrderedMeans(init);
      WithinMeans(init, 0, Rank(ps[|ps| - 1].kind));
      assert forall i :: 0 <= i < |init| ==> init[i] == ps[i];
    }
  }

  lemma {:induction false} WithinWiden(ps: seq<Pattern>, lo: nat, hi: nat, lo': nat, hi': nat)
    requires Within(ps, lo, hi) && lo' <= lo && hi <= hi'
    ensures Within(ps, lo', hi')
    decreases |ps|
  {
    if ps != [] {
      WithinWiden(ps[..|ps| - 1], lo, hi, lo', hi');
    }
  }

  lemma {:induction false} WithinAppend(a: seq<Pattern>, b: seq<Pattern>, lo: nat, hi: nat)
    requires Within(a, lo, hi) && Within(b, lo, hi)
    ensures Within(a + b, lo, hi)
    decreases |b|
  {
    if b == [] {
      assert a + b == a;
    } else {
      WithinAppend(a, b[..|b| - 1], lo, hi);
      assert (a + b)[..|a + b| - 1] == a + b[..|b| - 1];
    }
  }

  /** Joining two ordered lists whose checks do not interleave keeps the order. */
  lemma {:induction false} OrderedAppend(a: seq<Pattern>, b: seq<Pattern>, lo: nat, mid: nat, hi: nat)
    requires lo <= mid <= hi
    requires Canonical(a) && Ordered(a) && Within(a, lo, mid)
    requires Canonical(b) && Ordered(b) && Within(b, mid, hi)
    ensures Canonical(a + b) && Ordered(a + b) && Within(a + b, lo, hi)
    decreases |b|
  {
    if b == [] {
      assert a + b == a;
      WithinWiden(a, lo, mid, lo, hi);
    } else {
      var init, r := b[..|b| - 1], Rank(b[|b| - 1].kind);
      OrderedAppend(a, init, lo, mid, hi);
      assert (a + b)[..|a + b| - 1] == a + init;
      WithinWiden(a, lo, mid, 0, r);
      WithinAppend(a, init, 0, r);
    }
  }

  /** A single pattern is canonical and ordered. */
  lemma Single(k: Kind)
    ensures Canonical([PatternOf(k)]) && Ordered([PatternOf(k)]) && Within([PatternOf(k)], Rank(k), Rank(k) + 1)
    ensures forall x :: x in Kinds([PatternOf(k)]) <==> x == k
  {
    assert [PatternOf(k)][..0] == [];
    assert [PatternOf(k)][0].kind == k;
  }

  /** The checks of `detect_patterns`, in order. */
  const CheckOrder: seq<Kind> := [
    GoldenCrossPattern, DeathCrossPattern, OversoldPattern, OverboughtPattern,
    MacdBullishCrossover, MacdBearishCrossover, BollingerSqueeze, HigherHighs,
    LowerLows, VolumeSpike, NearResistance, NearSupport]

  /** The check at position `n` of `detect_patterns`. */
  function KindAt(n: nat): (k: Kind)
    requires n < 12
    ensures Rank(k) == n
  {
    CheckOrder[n]
  }

  lemma KindAtRank(k: Kind)
    ensures Rank(k) < 12 && KindAt(Rank(k)) == k
  {
  }

  /** The twelve conditions `detect_patterns` evaluates, before any `elif` applies. */
  datatype Checks = Checks(
    goldenCross: bool, deathCross: bool,
    oversold: bool, overbought: bool,
    macdUp: bool, macdDown: bool,
    squeeze: bool,
    risingHighs: bool, fallingLows: bool,
    volumeSpike: bool,
    nearResistance: bool, nearSupport: bool)

  /** The conditions on a frame of at least 20 rows. */
  function ChecksOf(rows: seq<Row>): Checks
    requires |rows| >= 20
  {
    var last, prev := rows[|rows| - 1], rows[|rows| - 2];
    var close := last.bar.close;
    Checks(
      SmaGoldenCross(prev, last), SmaDeathCross(prev, last),
      last.rsi < 30.0, last.rsi > 70.0,
      MacdUpCross(prev, last), MacdDownCross(prev, last),
      Squeeze(rows),
      RisingHighs(rows), FallingLows(rows),
      Gt(last.volumeRatio, Some(2.0)),
      close >= RecentHigh(rows) * 0.98, close <= RecentLow(rows) * 1.02)
  }

  /**
   * Whether `detect_patterns` reports a pattern of kind `k`: an `elif` check
   * only when the first check of its pair did not fire.
   */
  predicate Detected(c: Checks, k: Kind) {
    match k
    case GoldenCrossPattern => c.goldenCross
    case DeathCrossPattern => !c.goldenCross && c.deathCross
    case OversoldPattern => c.oversold
    case OverboughtPattern => !c.oversold && c.overbought
    case MacdBullishCrossover => c.macdUp
    case MacdBearishCrossover => !c.macdUp && c.macdDown
    case BollingerSqueeze => c.squeeze
    case HigherHighs => c.risingHighs
    case LowerLows => c.fallingLows
    case VolumeSpike => c.volumeSpike
    case NearResistance => c.nearResistance
    case NearSupport => !c.nearResistance && c.nearSupport
  }

  /**
   * `p` followed by the patterns of the checks at positions `lo` up to
   * (excluding) `hi`, in check order.
   */
  function Extend(p: seq<Pattern>, c: Checks, lo: nat, hi: nat): seq<Pattern>
    requires lo <= hi <= 12
    decreases hi
  {
    if hi == lo then p
    else if Detected(c, KindAt(hi - 1)) then Extend(p, c, lo, hi - 1) + [PatternOf(KindAt(hi - 1))]
    else Extend(p, c, lo, hi - 1)
  }

  /** The patterns of the first `n` checks, in check order. */
  function Upto(c: Checks, n: nat): seq<Pattern>
    requires n <= 12
  {
    Extend([], c, 0, n)
  }

  /** Running the checks `a..b` and then `b..d` is running the checks `a..d`. */
  lemma {:induction false} ExtendTrans(p: seq<Pattern>, c: Checks, a: nat, b: nat, d: nat)
    requires a <= b <= d <= 12
    ensures Extend(Extend(p, c, a, b), c, b, d) == Extend(p, c, a, d)
    decreases d
  {
    if d > b {
      ExtendTrans(p, c, a, b, d - 1);
    }
  }

  /** What `detect_patterns` returns on a frame with checks `c`. */
  function Expected(c: Checks): seq<Pattern> {
    Upto(c, 12)
  }

  /** The first `n` checks contribute exactly their detected kinds. */
  lemma {:induction false} UptoKinds(c: Checks, n: nat, x: Kind)
    requires n <= 12
    ensures x in Kinds(Upto(c, n)) <==> Rank(x) < n && Detected(c, x)
  {
    if n > 0 {
      var k := KindAt(n - 1);
      UptoKinds(c, n - 1, x);
      KindsAppendMember(Upto(c, n - 1), [PatternOf(k)], x);
      Single(k);
      KindAtRank(x);
    }
  }

  /** The first `n` checks contribute their patterns in check order, each canonical. */
  lemma {:induction false} UptoOrdered(c: Checks, n: nat)
    requires n <= 12
    ensures Canonical(Upto(c, n)) && Ordered(Upto(c, n)) && Within(Upto(c, n), 0, n)
  {
    if n > 0 {
      var k := KindAt(n - 1);
      UptoOrdered(c, n - 1);
      if Detected(c, k) {
        Single(k);
        OrderedAppend(Upto(c, n - 1), [PatternOf(k)], 0, n - 1, n);
      } else {
        WithinWiden(Upto(c, n - 1), 0, n - 1, 0, n);
      }
    } else {
      assert Upto(c, 0) == [];
    }
  }

  /** Of each opposing pair at most one is reported; resistance wins over support. */
  lemma DetectedExclusive(c: Checks)
    ensures !(Detected(c, GoldenCrossPattern) && Detected(c, DeathCrossPattern))
    ensures !(Detected(c, OversoldPattern) && Detected(c, OverboughtPattern))
    ensures !(Detected(c, MacdBullishCrossover) && Detected(c, MacdBearishCrossover))
    ensures !(Detected(c, NearResistance) && Detected(c, NearSupport))
  {
  }

  /** An RSI cannot be both below 30 and above 70, so the overbought check is independent of its `elif`. */
  lemma OverboughtIndependent(rows: seq<Row>)
    requires |rows| >= 20
    ensures Detected(ChecksOf(rows), OverboughtPattern) <==> rows[|rows| - 1].rsi > 70.0
  {
  }

  /**
   * What the result of `detect_patterns` means: exactly the detected kinds,
   * in check order (so no kind twice), each with its type and strength.
   */
  lemma ExpectedMeaning(c: Checks)
    ensures forall k :: k in Kinds(Expected(c)) <==> Detected(c, k)
    ensures forall i, j :: 0 <= i < j < |Expected(c)| ==> Rank(Expected(c)[i].kind) < Rank(Expected(c)[j].kind)
    ensures forall i :: 0 <= i < |Expected(c)| ==> Expected(c)[i] == PatternOf(Expected(c)[i].kind)
  {
    forall k ensures k in Kinds(Expected(c)) <==> Detected(c, k) {
      UptoKinds(c, 12, k);
      KindAtRank(k);
    }
    UptoOrdered(c, 12);
    OrderedMeans(Expected(c));
    CanonicalMeans(Expected(c));
  }

  /** Golden Cross / Death Cross section: the death cross is an `elif`. */
  method AddCrossPatterns(c: Checks, patterns: seq<Pattern>) returns (r: seq<Pattern>)
    ensures r == Extend(patterns, c, 0, 2)
  {
    r := patterns;
    if c.goldenCross {
      r := r + [PatternOf(GoldenCrossPattern)];
    } else if c.deathCross {
      r := r + [PatternOf(DeathCrossPattern)];
    }
  }

  /** RSI section: overbought is an `elif` of oversold. */
  method AddRsiPatterns(c: Checks, patterns: seq<Pattern>) returns (r: seq<Pattern>)
    ensures r == Extend(patterns, c, 2, 4)
  {
    r := patterns;
    if c.oversold {
      r := r + [PatternOf(OversoldPattern)];
    } else if c.overbought {
      r := r + [PatternOf(OverboughtPattern)];
    }
  }

  /** MACD crossover section: the bearish crossover is an `elif`. */
  method AddMacdPatterns(c: Checks, patterns: seq<Pattern>) returns (r: seq<Pattern>)
    ensures r == Extend(patterns, c, 4, 6)
  {
    r := patterns;
    if c.macdUp {
      r := r + [PatternOf(MacdBullishCrossover)];
    } else if c.macdDown {
      r := r + [PatternOf(MacdBearishCrossover)];
    }
  }

  /** Bollinger Band squeeze section. */
  method AddSqueezePattern(c: Checks, patterns: seq<Pattern>) returns (r: seq<Pattern>)
    ensures r == Extend(patterns, c, 6, 7)
  {
    r := patterns;
    if c.squeeze {
      r := r + [PatternOf(BollingerSqueeze)];
    }
  }

  /** Higher highs / lower lows section: two independent checks. */
  method AddTrendPatterns(c: Checks, patterns: seq<Pattern>) returns (r: seq<Pattern>)
    ensures r == Extend(patterns, c, 7, 9)
  {
    r := patterns;
    if c.risingHighs {
      r := r + [PatternOf(HigherHighs)];
    }
    if c.fallingLows {
      r := r + [PatternOf(LowerLows)];
    }
  }

  /** Volume spike section. */
  method AddVolumePattern(c: Checks, patterns: seq<Pattern>) returns (r: seq<Pattern>)
    ensures r == Extend(patterns, c, 9, 10)
  {
    r := patterns;
    if c.volumeSpike {
      r := r + [PatternOf(VolumeSpike)];
    }
  }

  /** Support/resistance section: near support is an `elif`. */
  method AddLevelPatterns(c: Checks, patterns: seq<Pattern>) returns (r: seq<Pattern>)
    ensures r == Extend(patterns, c, 10, 12)
  {
    r := patterns;
    if c.nearResistance {
      r := r + [PatternOf(NearResistance)];
    } else if c.nearSupport {
      r := r + [PatternOf(NearSupport)];
    }
  }

  /** The body of `detect_patterns` once the frame has 20 rows: the sections in order. */
  method CollectPatterns(c: Checks) returns (patterns: seq<Pattern>)
    ensures patterns == Expected(c)
  {
    patterns := AddCrossPatterns(c, []);
    patterns := AddRsiPatterns(c, patterns);
    ExtendTrans([], c, 0, 2, 4);
    patterns := AddMacdPatterns(c, patterns);
    ExtendTrans([], c, 0, 4, 6);
    patterns := AddSqueezePattern(c, patterns);
    ExtendTrans([], c, 0, 6, 7);
    patterns := AddTrendPatterns(c, patterns);
    ExtendTrans([], c, 0, 7, 9);
    patterns := AddVolumePattern(c, patterns);
    ExtendTrans([], c, 0, 9, 10);
    patterns := AddLevelPatterns(c, patterns);
    ExtendTrans([], c, 0, 10, 12);
  }

  /** `detect_patterns`: no patterns below 20 rows, otherwise those of the frame's checks. */
  method DetectPatterns(rows: seq<Row>) returns (patterns: seq<Pattern>)
    ensures |rows| < 20 ==> patterns == []
    ensures |rows| >= 20 ==> patterns == Expected(ChecksOf(rows))
  {
    if |rows| < 20 {
      return [];
    }
    patterns := CollectPatterns(ChecksOf(rows));
  }

  // ---- get_pattern_summary ----

  function Weight(s: Strength): nat {
    match s
    case Strong => 3
    case Moderate => 2
    case Weak => 1
    case OtherStrength => 1
  }

  /** Number and total weight of the patterns of one type. */
  function CountOf(ps: seq<Pattern>, t: PatternType): nat {
    if ps == [] then 0
    else CountOf(ps[..|ps| - 1], t) + (if ps[|ps| - 1].patternType == t then 1 else 0)
  }

  function StrengthOf(ps: seq<Pattern>, t: PatternType): nat {
    if ps == [] then 0
    else StrengthOf(ps[..|ps| - 1], t) + (if ps[|ps| - 1].patternType == t then Weight(ps[|ps| - 1].strength) else 0)
  }

  datatype SummarySignal = BullishSignal | BearishSignal | NeutralSignal

  /** `{'signal': 'neutral', 'strength': 0, 'patterns_count': 0}` for no patterns. */
  datatype Summary =
    | NoPatterns
    | Summary(signal: SummarySignal, bullishCount: nat, bearishCount: nat, strength: int,
              patternsCount: nat, patterns: seq<Pattern>)

  /** `get_pattern_summary` */
  function PatternSummary(ps: seq<Pattern>): (s: Summary)
    ensures ps == [] <==> s == NoPatterns
    ensures s.Summary? ==>
      s.patternsCount == |ps| && s.patterns == ps &&
      s.strength == StrengthOf(ps, BullishType) - StrengthOf(ps, BearishType) &&
      (s.signal == BullishSignal <==> (StrengthOf(ps, BullishType) as real) > (StrengthOf(ps, BearishType) as real) * 1.5) &&
      (s.signal == BearishSignal <==>
        !((StrengthOf(ps, BullishType) as real) > (StrengthOf(ps, BearishType) as real) * 1.5) &&
        (StrengthOf(ps, BearishType) as real) > (StrengthOf(ps, BullishType) as real) * 1.5)
  {
    if ps == [] then NoPatterns
    else
      var bull, bear := StrengthOf(ps, BullishType), StrengthOf(ps, BearishType);
      var signal :=
        if (bull as real) > (bear as real) * 1.5 then BullishSignal
        else if (bear as real) > (bull as real) * 1.5 then BearishSignal
        else NeutralSignal;
      Summary(signal, CountOf(ps, BullishType), CountOf(ps, BearishType), bull - bear, |ps|, ps)
  }

  /** Neutral patterns count as neither, so bullish and bearish counts never exceed the total. */
  lemma {:induction false} CountsWithinTotal(ps: seq<Pattern>)
    ensures CountOf(ps, BullishType) + CountOf(ps, BearishType) + CountOf(ps, NeutralType) == |ps|
    decreases |ps|
  {
    if ps != [] {
      CountsWithinTotal(ps[..|ps| - 1]);
    }
  }

  /** Each pattern weighs between 1 and 3. */
  lemma {:induction false} StrengthWithinCount(ps: seq<Pattern>, t: PatternType)
    ensures CountOf(ps, t) <= StrengthOf(ps, t) <= 3 * CountOf(ps, t)
    decreases |ps|
  {
    if ps != [] {
      StrengthWithinCount(ps[..|ps| - 1], t);
    }
  }

  /** The summary's counts never exceed the number of patterns. */
  lemma SummaryCountsBounded(ps: seq<Pattern>)
    requires ps != []
    ensures PatternSummary(ps).bullishCount + PatternSummary(ps).bearishCount <= PatternSummary(ps).patternsCount
  {
    CountsWithinTotal(ps);
  }

  /** A bullish summary has positive strength, a bearish one negative strength. */
  lemma SummarySignalAgreesWithStrength(ps: seq<Pattern>)
    requires ps != []
    ensures PatternSummary(ps).signal == BullishSignal ==> PatternSummary(ps).strength > 0
    ensures PatternSummary(ps).signal == BearishSignal ==> PatternSummary(ps).strength < 0
  {
  }
}
