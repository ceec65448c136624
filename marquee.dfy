/**
 * The news marquee timing of frontend/src/App.jsx: every headline scrolls by the
 * width it overflows its 280 px column, at 18 px/s, between a 1.5 s pause at each
 * end; all headlines share the duration of the slowest of the first five, and a
 * master interval bumps `cycleKey` once per duration plus a 4 s hold.
 *
 * Text widths (canvas `measureText`, DOM `scrollWidth`/`offsetWidth`) are inputs.
 */
module Marquee {
  /** The column width the canvas measurement is compared with, in px. */
  const ColumnWidth: real := 280.0
  /** Scroll speed in px/s. */
  const Speed: real := 18.0
  /** The pause at each end of a scroll, in s. */
  const EndPause: real := 1.5
  /** How many headlines the shared duration looks at. */
  const Considered := 5
  /** The duration used when the slowest time is not positive. */
  const FallbackDuration: real := 8.0
  /** The hold after each cycle, in s. */
  const HoldTime: real := 4.0

  /** How far a headline of measured width `width` must scroll. */
  function ItemDist(width: real): (d: real)
    ensures d >= 0.0
    ensures d == 0.0 <==> width <= ColumnWidth
    ensures d > 0.0 ==> width == ColumnWidth + d
  {
    if width - ColumnWidth > 0.0 then width - ColumnWidth else 0.0
  }

  /** The time a headline needs: its scroll plus both pauses. */
  function ItemTime(width: real): (t: real)
    ensures t >= 2.0 * EndPause
    ensures (t - 2.0 * EndPause) * Speed == ItemDist(width)
  {
    ItemDist(width) / Speed + 2.0 * EndPause
  }

  /** The times of the headlines the shared duration considers. */
  function Times(widths: seq<real>): (ts: seq<real>)
    ensures |ts| == if |widths| < Considered then |widths| else Considered
    ensures forall i :: 0 <= i < |ts| ==> ts[i] == ItemTime(widths[i])
  {
    var n := if |widths| < Considered then |widths| else Considered;
    seq(n, i requires 0 <= i < n => ItemTime(widths[i]))
  }

  /** `Math.max(...xs)` of a non-empty list. */
  function MaxOf(xs: seq<real>): (m: real)
    requires |xs| > 0
    ensures m in xs
    ensures forall i :: 0 <= i < |xs| ==> xs[i] <= m
  {
    if |xs| == 1 then xs[0]
    else
      var rest := MaxOf(xs[1..]);
      if xs[0] >= rest then xs[0] else rest
  }

  /**
   * The `maxDuration` effect: unchanged while there is no news, else the slowest of
   * the first five times, or 8 when that is not positive.
   */
  function MaxDuration(current: real, widths: seq<real>): (d: real)
    ensures |widths| == 0 ==> d == current
    ensures |widths| > 0 ==> d >= 2.0 * EndPause
  {
    if |widths| == 0 then current
    else
      var ts := Times(widths);
      var slowest := MaxOf(ts);
      assert ts[0] <= slowest;
      if slowest > 0.0 then slowest else FallbackDuration
  }

  /**
   * With news present the shared duration is the slowest of the first five times:
   * at least every one of them, so at least 3 s, and one of them exactly; the
   * fallback of 8 is never taken.
   */
  lemma MaxDurationBound(current: real, widths: seq<real>)
    requires |widths| > 0
    ensures MaxDuration(current, widths) >= 2.0 * EndPause
    ensures forall i :: 0 <= i < |widths| && i < Considered ==> ItemTime(widths[i]) <= MaxDuration(current, widths)
    ensures exists i :: 0 <= i < |widths| && i < Considered && ItemTime(widths[i]) == MaxDuration(current, widths)
  {
    var ts := Times(widths);
    var m := MaxOf(ts);
    assert ts[0] <= m;
    var i :| 0 <= i < |ts| && ts[i] == m;
    assert ItemTime(widths[i]) == MaxDuration(current, widths);
  }

  /** With no news the effect does nothing. */
  lemma MaxDurationNoNews(current: real)
    ensures MaxDuration(current, []) == current
  {
  }

  /**
   * The number of times the master interval has bumped `cycleKey` `elapsed` ms after
   * it was set up for `maxDuration`: none when `maxDuration` is not positive, else
   * one per `(maxDuration + 4) * 1000` ms completed.
   */
  function CycleTicks(maxDuration: real, elapsed: real): (n: nat)
    requires elapsed >= 0.0
    ensures maxDuration <= 0.0 ==> n == 0
    ensures maxDuration > 0.0 ==>
      n as real * CyclePeriod(maxDuration) <= elapsed < (n + 1) as real * CyclePeriod(maxDuration)
  {
    if maxDuration <= 0.0 then 0
    else
      var p := CyclePeriod(maxDuration);
      WholePeriods(elapsed, p);
      (elapsed / p).Floor
  }

  /** `elapsed` spans `floor(elapsed / p)` whole periods of length `p` and part of the next. */
  lemma WholePeriods(elapsed: real, p: real)
    requires elapsed >= 0.0 && p > 0.0
    ensures (elapsed / p).Floor >= 0
    ensures (elapsed / p).Floor as real * p <= elapsed < ((elapsed / p).Floor + 1) as real * p
  {
    var q := elapsed / p;
    assert q * p == elapsed;
    assert q >= 0.0 by { DivMonotone(0.0, elapsed, p); }
    FloorBounds(q);
    var k := q.Floor;
    ScaleBounds(k, q, p);
    calc {
      k as real * p;
    <= q * p;
    == elapsed;
    }
    calc {
      elapsed;
    == q * p;
    < (k + 1) as real * p;
    }
  }

  /** The master interval's period in ms. */
  function CyclePeriod(maxDuration: real): (p: real)
    ensures maxDuration > 0.0 ==> p > HoldTime * 1000.0
  {
    (maxDuration + HoldTime) * 1000.0
  }

  lemma FloorBounds(q: real)
    requires q >= 0.0
    ensures q.Floor >= 0
    ensures q.Floor as real <= q < (q.Floor + 1) as real
  {
  }

  lemma ScaleBounds(k: int, q: real, p: real)
    requires p > 0.0 && k as real <= q < (k + 1) as real
    ensures k as real * p <= q * p < (k + 1) as real * p
  {
  }

  /** `MarqueeHeadline`'s measured overflow: negative differences count as none. */
  function HeadlineDist(scrollWidth: real, offsetWidth: real): (d: real)
    ensures d >= 0.0
    ensures d > 0.0 <==> scrollWidth > offsetWidth
    ensures d > 0.0 ==> d == scrollWidth - offsetWidth
  {
    var d := scrollWidth - offsetWidth;
    if d > 0.0 then d else 0.0
  }

  /** A headline only gets a keyframe animation when it overflows and the duration is set. */
  predicate Animated(dist: real, maxDuration: real)
  {
    dist > 0.0 && maxDuration > 0.0
  }

  /** Keyframe percentage at which the scroll starts. */
  function PStart(maxDuration: real): (p: real)
    requires maxDuration > 0.0
    ensures 0.0 < p
  {
    DivMonotone(EndPause, EndPause, maxDuration);
    EndPause / maxDuration * 100.0
  }

  /** Keyframe percentage at which the scroll ends. */
  function PEnd(maxDuration: real, dist: real): (p: real)
    requires maxDuration > 0.0
    ensures dist >= 0.0 ==> PStart(maxDuration) <= p
  {
    var b := EndPause + dist / Speed;
    assert dist >= 0.0 ==> EndPause / maxDuration <= b / maxDuration by {
      if dist >= 0.0 {
        DivMonotone(EndPause, b, maxDuration);
      }
    }
    b / maxDuration * 100.0
  }

  /**
   * The keyframes are in order: the scroll starts after the first pause and ends no
   * earlier; when the shared duration covers this headline's own time, the scroll
   * also ends in time for the closing pause.
   */
  lemma KeyframesOrdered(maxDuration: real, dist: real)
    requires Animated(dist, maxDuration)
    ensures 0.0 < PStart(maxDuration) <= PEnd(maxDuration, dist)
    ensures maxDuration >= dist / Speed + 2.0 * EndPause ==>
      PEnd(maxDuration, dist) <= 100.0 - PStart(maxDuration)
  {
    var m := maxDuration;
    var a := EndPause;
    var b := EndPause + dist / Speed;
    DivMonotone(a, b, m);
    assert PStart(m) == a / m * 100.0;
    assert PEnd(m, dist) == b / m * 100.0;
    if m >= dist / Speed + 2.0 * EndPause {
      DivMonotone(b, m - a, m);
      assert (m - a) / m == 1.0 - a / m;
    }
  }

  lemma DivMonotone(a: real, b: real, m: real)
    requires m > 0.0 && a <= b
    ensures a / m <= b / m
    ensures a > 0.0 ==> a / m > 0.0
  {
    assert b / m - a / m == (b - a) / m;
  }
}
