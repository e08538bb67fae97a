/** The arithmetic of the fair scheduler: fixed-point rounding
    (system/ulib/ffl/include/ffl/fixed_format.h) and the division of a scheduling period
    into time slices (kernel/kernel/fair_scheduler.cc). */
module FairShare {
  const ONE := 65536                   // SchedWeight has 16 fractional bits
  const HALF := 32768
  const MAX := 0x7FFF_FFFF_FFFF_FFFF

  // ----- rounding -----

  /** Round half to even, as it is meant. */
  function HalfEven(q: int): int
    requires q >= 0
  {
    var i, f := q / ONE, q % ONE;
    if f > HALF || (f == HALF && i % 2 == 1) then i + 1 else i
  }

  /** FixedFormat::Round for 16 fractional bits, as it is written: the odd bit is shifted
      right by two places, not to the bottom. */
  function RoundToInt(q: int): int
    requires q >= 0
  {
    (q + (HALF - 1) + (if q / ONE % 2 == 1 then ONE / 4 else 0)) / ONE
  }

  /** The two agree except on odd numbers with a fraction between a quarter and a half. */
  lemma RoundingIsHalfEven(q: int)
    requires q >= 0
    ensures RoundToInt(q) == HalfEven(q) <==> !(q / ONE % 2 == 1 && ONE / 4 < q % ONE < HALF)
  {
    var i, f := q / ONE, q % ONE;
    assert q == i * ONE + f;
    RoundSplit(i, f, HALF - 1 + if i % 2 == 1 then ONE / 4 else 0);
  }

  lemma RoundSplit(i: int, f: int, add: int)
    requires 0 <= i && 0 <= f < ONE && 0 <= add < ONE
    ensures (i * ONE + f + add) / ONE == if f + add >= ONE then i + 1 else i
  {
  }

  /** 1.375 is rounded to 2. */
  lemma RoundsUpTooEarly()
    ensures RoundToInt(ONE + ONE / 4 + ONE / 8) == 2 && HalfEven(ONE + ONE / 4 + ONE / 8) == 1
  {
  }

  lemma RoundBound(q: int)
    requires q >= 0
    ensures 0 <= RoundToInt(q) && RoundToInt(q) * ONE < q + ONE
  {
  }

  // ----- time slices, in granules -----

  /** UpdatePeriod: the period stretches when there are more tasks than fit. */
  function Period(tasks: int, normal: int): (p: int)
    ensures p >= tasks && p >= normal && (p > normal ==> p == tasks)
  {
    if tasks > normal then tasks else normal
  }

  /** CalculateTimeslice: the share of weight w in a total of w0, at least one granule. */
  function Slice(period: int, w: int, w0: int): (g: int)
    requires period >= 0 && 0 <= w && 0 < w0
    ensures g >= 1
  {
    assert period * w >= 0;
    var q := period * w * ONE / w0;
    var g := RoundToInt(if q > MAX then MAX else q);
    if g > 0 then g else 1
  }

  function Sum(ws: seq<int>): int {
    if ws == [] then 0 else Sum(ws[..|ws| - 1]) + ws[|ws| - 1]
  }

  function Slices(period: int, ws: seq<int>, w0: int): int
    requires period >= 0 && 0 < w0 && forall i :: 0 <= i < |ws| ==> 0 <= ws[i]
  {
    if ws == [] then 0 else Slices(period, ws[..|ws| - 1], w0) + Slice(period, ws[|ws| - 1], w0)
  }

  lemma MulMonotone(a: int, b: int, c: int)
    requires a <= b && 0 <= c
    ensures a * c <= b * c
  {
  }

  lemma CancelRight(a: int, b: int, c: int)
    requires a * c <= b * c && 0 < c
    ensures a <= b
  {
  }

  lemma DivBound(n: int, d: int)
    requires n >= 0 && d > 0
    ensures 0 <= n / d && n / d * d <= n
  {
  }

  /** A slice exceeds the exact share by less than one granule. */
  lemma SliceBound(period: int, w: int, w0: int)
    requires period >= 0 && 0 <= w && 0 < w0
    ensures Slice(period, w, w0) * w0 <= period * w + w0
  {
    var share := period * w;
    assert share >= 0;
    var q := share * ONE / w0;
    DivBound(share * ONE, w0);
    var r := if q > MAX then MAX else q;
    var g := RoundToInt(r);
    RoundBound(r);
    MulMonotone(g * ONE, q + ONE, w0);
    assert g * ONE * w0 <= share * ONE + ONE * w0;
    Cancel(g, w0, share);
  }

  lemma Cancel(g: int, w0: int, share: int)
    requires g * ONE * w0 <= share * ONE + ONE * w0
    ensures g * w0 <= share + w0
  {
    assert g * ONE * w0 == (g * w0) * ONE;
  }

  lemma AddBounds(a: int, b: int, w0: int, period: int, sum: int, w: int, n: int)
    requires a * w0 <= period * sum + n * w0 && b * w0 <= period * w + w0
    ensures (a + b) * w0 <= period * (sum + w) + (n + 1) * w0
  {
    assert (a + b) * w0 == a * w0 + b * w0;
    assert period * (sum + w) == period * sum + period * w;
    assert (n + 1) * w0 == n * w0 + w0;
  }

  /** Rounding loses at most half a unit, and gains less than three quarters. */
  lemma RoundNear(q: int)
    requires q >= 0
    ensures q - HALF <= RoundToInt(q) * ONE <= q + HALF - 1 + ONE / 4
  {
  }

  lemma RoundMonotone(q: int, q': int)
    requires 0 <= q <= q'
    ensures RoundToInt(q) <= RoundToInt(q')
  {
    var i, i' := q / ONE, q' / ONE;
    RoundSplit(i, q % ONE, HALF - 1 + if i % 2 == 1 then ONE / 4 else 0);
    RoundSplit(i', q' % ONE, HALF - 1 + if i' % 2 == 1 then ONE / 4 else 0);
    assert q == i * ONE + q % ONE && q' == i' * ONE + q' % ONE;
  }

  lemma DivMonotone(n: int, n': int, d: int)
    requires 0 <= n <= n' && d > 0
    ensures n / d <= n' / d
  {
    DivBound(n, d);
    DivRest(n', d);
    if n / d > n' / d {
      MulMonotone(n' / d + 1, n / d, d);
    }
  }

  lemma DivRest(n: int, d: int)
    requires n >= 0 && d > 0
    ensures n < n / d * d + d
  {
    assert n == n / d * d + n % d;
  }

  /** The quotient fits into 63 bits. */
  predicate Unsaturated(period: int, w: int, w0: int)
    requires 0 < w0
  {
    period * w * ONE / w0 <= MAX
  }

  /** A slice falls short of the exact share by at most half a granule and one unit in
      the last place. */
  lemma SliceEnough(period: int, w: int, w0: int)
    requires period >= 0 && 0 <= w && 0 < w0 && Unsaturated(period, w, w0)
    ensures period * w * ONE <= (Slice(period, w, w0) * ONE + HALF + 1) * w0
    ensures period * w <= (Slice(period, w, w0) + 1) * w0
  {
    var share, g := period * w, Slice(period, w, w0);
    assert share >= 0;
    var q := share * ONE / w0;
    RoundNear(q);
    DivRest(share * ONE, w0);
    DivBound(share * ONE, w0);
    MulMonotone(q, g * ONE + HALF, w0);
    assert (g * ONE + HALF + 1) * w0 == (g * ONE + HALF) * w0 + w0;
    MulMonotone(g * ONE + HALF + 1, (g + 1) * ONE, w0);
    EnoughAtLarge(share, g, w0);
  }

  lemma EnoughAtLarge(share: int, g: int, w0: int)
    requires share * ONE <= (g + 1) * ONE * w0
    ensures share <= (g + 1) * w0
  {
    assert (g + 1) * ONE * w0 == (g + 1) * w0 * ONE;
  }

  /** And it never exceeds it by three quarters of a granule, unless it is the least one. */
  lemma SliceNotMuchMore(period: int, w: int, w0: int)
    requires period >= 0 && 0 <= w && 0 < w0
    ensures Slice(period, w, w0) > 1 ==> Slice(period, w, w0) * ONE * w0 <= period * w * ONE + (HALF - 1 + ONE / 4) * w0
  {
    var share, g := period * w, Slice(period, w, w0);
    assert share >= 0;
    var q := share * ONE / w0;
    RoundNear(if q > MAX then MAX else q);
    DivBound(share * ONE, w0);
    if g > 1 {
      AtMost(g * ONE, q, HALF - 1 + ONE / 4, w0, share * ONE);
    }
  }

  lemma AtMost(a: int, q: int, k: int, w0: int, n: int)
    requires a <= q + k && 0 < w0 && q * w0 <= n
    ensures a * w0 <= n + k * w0
  {
    MulMonotone(a, q + k, w0);
    assert (q + k) * w0 == q * w0 + k * w0;
  }

  /** Who weighs more gets no less. */
  lemma SliceMonotone(period: int, w: int, w': int, w0: int)
    requires period >= 0 && 0 <= w <= w' && 0 < w0
    ensures Slice(period, w, w0) <= Slice(period, w', w0)
  {
    MulMonotone(w, w', period);
    assert 0 <= period * w <= period * w';
    DivMonotone(period * w * ONE, period * w' * ONE, w0);
    var q, q' := period * w * ONE / w0, period * w' * ONE / w0;
    DivBound(period * w * ONE, w0);
    RoundMonotone(if q > MAX then MAX else q, if q' > MAX then MAX else q');
  }

  lemma AddEnough(a: int, b: int, w0: int, period: int, sum: int, w: int, n: int)
    requires period * sum <= (a + n) * w0 && period * w <= (b + 1) * w0
    ensures period * (sum + w) <= (a + b + (n + 1)) * w0
  {
    assert period * (sum + w) == period * sum + period * w;
    assert (a + b + (n + 1)) * w0 == (a + n) * w0 + (b + 1) * w0;
  }

  /** A whole round gives everybody together no less than the period, but for one granule each. */
  lemma {:induction false} SlicesEnough(period: int, ws: seq<int>, w0: int)
    requires period >= 0 && 0 < w0 && forall i :: 0 <= i < |ws| ==> 0 <= ws[i] && Unsaturated(period, ws[i], w0)
    ensures period * Sum(ws) <= (Slices(period, ws, w0) + |ws|) * w0
  {
    if ws == [] {
      assert period * Sum(ws) == 0;
    } else {
      var front, w := ws[..|ws| - 1], ws[|ws| - 1];
      SlicesEnough(period, front, w0);
      SliceEnough(period, w, w0);
      AddEnough(Slices(period, front, w0), Slice(period, w, w0), w0, period, Sum(front), w, |front|);
    }
  }

  lemma {:induction false} SlicesBound(period: int, ws: seq<int>, w0: int)
    requires period >= 0 && 0 < w0 && forall i :: 0 <= i < |ws| ==> 0 <= ws[i]
    ensures |ws| <= Slices(period, ws, w0)
    ensures Slices(period, ws, w0) * w0 <= period * Sum(ws) + |ws| * w0
  {
    if ws != [] {
      var front, w := ws[..|ws| - 1], ws[|ws| - 1];
      SlicesBound(period, front, w0);
      SliceBound(period, w, w0);
      AddBounds(Slices(period, front, w0), Slice(period, w, w0), w0, period, Sum(front), w, |front|);
    }
  }

  /** A round with slices computed from any total: it fits if the total is right. */
  lemma RoundAt(ws: seq<int>, total: int, normal: int)
    requires forall i :: 0 <= i < |ws| ==> 0 <= ws[i]
    requires total > 0 && normal >= 1
    ensures var p := Period(|ws|, normal);
            && |ws| <= Slices(p, ws, total) && Slices(p, ws, total) * total <= p * Sum(ws) + |ws| * total
            && (Sum(ws) == total ==> Slices(p, ws, total) <= p + |ws| <= 2 * p)
  {
    SlicesBound(Period(|ws|, normal), ws, total);
    if Sum(ws) == total {
      RoundFitsTwice(ws, normal);
    }
  }

  /** One full round: every task gets at least one granule, and together they take at
      most the period plus one granule each, so at most twice the period. */
  lemma RoundFitsTwice(ws: seq<int>, normal: int)
    requires forall i :: 0 <= i < |ws| ==> 0 <= ws[i]
    requires Sum(ws) > 0 && normal >= 1
    ensures var p := Period(|ws|, normal);
            |ws| <= Slices(p, ws, Sum(ws)) <= p + |ws| <= 2 * p
  {
    var p, w0 := Period(|ws|, normal), Sum(ws);
    SlicesBound(p, ws, w0);
    assert p * w0 + |ws| * w0 == (p + |ws|) * w0;
    CancelRight(Slices(p, ws, w0), p + |ws|, w0);
  }
}
