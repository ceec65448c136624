/**
 * The rotating intraday chart (`FinancialChart` in frontend/src/App.jsx).
 *
 * `runSequence` is an async function that resets the phase flags, fetches the
 * ticker's series and then walks through a fixed chain of timed phases. Time is a
 * logical clock in milliseconds: every `await new Promise(r => setTimeout(r, d))`
 * advances it by `d`. The `isMounted` ref is cleared by the effect's cleanup when a
 * new ticker remounts the widget (its `key` is the rotation index), and a fresh
 * instance gets a fresh ref, so for one run the flag is true up to the cleanup time
 * and false from then on: `cleanupAt` is that time, `None` when it never comes.
 */
module ChartReveal {
  import opened Common

  /** The tickers the chart rotates through, in order. */
  const Tickers: seq<string> := ["NVDA", "MSFT", "GOOG", "META", "TSLA", "AMZN", "AAPL"]

  // Fixed waits of the reveal cycle, in milliseconds.
  const ScalesInWait := 500
  const LineInWait := 600
  const LabelInWait := 1600
  const HoldWait := 5000
  const LabelOutWait := 600
  const LineOutWait := 800
  const FinalWait := 1500
  /** The wait before advancing when the response holds no points. */
  const NoDataWait := 1000

  /** The price label's animation class: none, `'enter'` or `'exit'`. */
  datatype Label = Hidden | Enter | Exit

  /** A percent change; `NotFinite` when the first point is 0 (JavaScript gives Infinity or NaN). */
  datatype Change = Pct(value: real) | NotFinite

  datatype PriceInfo = PriceInfo(price: real, change: Change)

  /**
   * What `fetch(...).then(json)` produced: it threw, it gave `null` or a value without
   * a positive `length`, or it gave an array of points (their `value`s, in time order).
   */
  datatype Fetched = Threw | NoData | Series(values: seq<real>)

  /** One setter call or callback made by `runSequence`. */
  datatype Effect =
    | SetScales(opacity: int)
    | SetLineClip(percent: int)
    | SetLabel(anim: Label)
    | SetPriceInfo(info: Option<PriceInfo>)
    | SetSeries(values: seq<real>)
    | CycleComplete

  /** An effect stamped with the logical time at which it ran. */
  datatype Event = Event(at: int, effect: Effect)

  /** The widget's React state. */
  datatype View = View(scales: int, clip: int, anim: Label, info: Option<PriceInfo>, series: seq<real>)

  /** Percent change from the first to the last point, `(last - first) / first * 100`. */
  function PercentChange(first: real, last: real): (c: Change)
    ensures c.Pct? <==> first != 0.0
  {
    if first == 0.0 then NotFinite else Pct((last - first) / first * 100.0)
  }

  /**
   * The change is finite exactly when the first point is not 0; it then recovers the
   * last point from the first, and its sign says whether the price rose.
   */
  lemma PercentChangeMeaning(first: real, last: real)
    ensures PercentChange(first, last).Pct? <==> first != 0.0
    ensures PercentChange(first, last).Pct? ==>
      last == first + first * PercentChange(first, last).value / 100.0
    ensures PercentChange(first, last).Pct? && first > 0.0 ==>
      (PercentChange(first, last).value > 0.0 <==> last > first)
  {
    if first != 0.0 {
      var c := (last - first) / first * 100.0;
      assert first * c / 100.0 == last - first;
      if first > 0.0 {
        assert c > 0.0 <==> last - first > 0.0;
      }
    }
  }

  /** The label shown on success: the last value and the change since the first. */
  function InfoOf(values: seq<real>): (p: PriceInfo)
    requires |values| > 0
    ensures p.price == values[|values| - 1]
    ensures p.change.Pct? <==> values[0] != 0.0
  {
    PriceInfo(values[|values| - 1], PercentChange(values[0], values[|values| - 1]))
  }

  /** The liveness flag as read at time `t`. */
  predicate Mounted(cleanupAt: Option<int>, t: int)
  {
    cleanupAt.None? || t < cleanupAt.value
  }

  /** The four unconditional resets made before the fetch starts. */
  function ResetEvents(start: int): seq<Event>
  {
    [Event(start, SetScales(0)), Event(start, SetLineClip(0)),
     Event(start, SetLabel(Hidden)), Event(start, SetPriceInfo(None))]
  }

  /**
   * Everything the sequence would do after the fetch settles at time `t` if the
   * widget stayed mounted, with each effect at its absolute time.
   */
  function Plan(t: int, fetched: Fetched): (r: seq<Event>)
    ensures |r| > 0 && r[|r| - 1] == Event(t + CycleDelay(fetched), CycleComplete)
    ensures forall i :: 0 <= i < |r| ==> r[i].at >= t
  {
    match fetched
    case Threw => [Event(t, CycleComplete)]
    case NoData => [Event(t + NoDataWait, CycleComplete)]
    case Series(vs) =>
      if |vs| == 0 then [Event(t + NoDataWait, CycleComplete)]
      else
        [Event(t, SetSeries(vs)),
         Event(t, SetPriceInfo(Some(InfoOf(vs)))),
         Event(t + 500, SetScales(1)),
         Event(t + 1100, SetLineClip(100)),
         Event(t + 2700, SetLabel(Enter)),
         Event(t + 7700, SetLabel(Exit)),
         Event(t + 8300, SetLineClip(0)),
         Event(t + 9100, SetScales(0)),
         Event(t + 10600, CycleComplete)]
  }

  /** The planned events that still find the widget mounted. */
  function Live(evs: seq<Event>, cleanupAt: Option<int>): (r: seq<Event>)
    ensures |r| <= |evs|
    ensures forall i :: 0 <= i < |r| ==> Mounted(cleanupAt, r[i].at)
  {
    if evs == [] then []
    else (if Mounted(cleanupAt, evs[0].at) then [evs[0]] else []) + Live(evs[1..], cleanupAt)
  }

  /** The whole observable run: the resets, then the live part of the plan. */
  function Trace(start: int, fetchDelay: nat, fetched: Fetched, cleanupAt: Option<int>): (r: seq<Event>)
    ensures |r| >= 4 && r[..4] == ResetEvents(start)
    ensures forall i :: 4 <= i < |r| ==> Mounted(cleanupAt, r[i].at)
  {
    ResetEvents(start) + Live(Plan(start + fetchDelay, fetched), cleanupAt)
  }

  /** How long after the fetch settles `onCycleComplete` is due. */
  function CycleDelay(fetched: Fetched): (d: nat)
    ensures d == 0 <==> fetched.Threw?
    ensures fetched.Series? && |fetched.values| > 0 ==> d == 10600
    ensures fetched.NoData? || (fetched.Series? && |fetched.values| == 0) ==> d == 1000
  {
    if fetched.Threw? then 0
    else if fetched.Series? && |fetched.values| > 0 then
      ScalesInWait + LineInWait + LabelInWait + HoldWait + LabelOutWait + LineOutWait + FinalWait
    else NoDataWait
  }

  function Apply(v: View, e: Effect): View
  {
    match e
    case SetScales(o) => v.(scales := o)
    case SetLineClip(p) => v.(clip := p)
    case SetLabel(l) => v.(anim := l)
    case SetPriceInfo(i) => v.(info := i)
    case SetSeries(s) => v.(series := s)
    case CycleComplete => v
  }

  /** The state reached from `v` by running `evs` in order. */
  function Replay(v: View, evs: seq<Event>): View
    decreases |evs|
  {
    if evs == [] then v else Replay(Apply(v, evs[0].effect), evs[1..])
  }

  function Completions(evs: seq<Event>): nat
  {
    if evs == [] then 0
    else (if evs[0].effect == CycleComplete then 1 else 0) + Completions(evs[1..])
  }

  predicate TimeOrdered(evs: seq<Event>)
  {
    forall i, j :: 0 <= i < j < |evs| ==> evs[i].at <= evs[j].at
  }

  /** The rotation index after `onCycleComplete`: `(i + 1) % TICKERS_ROTATION.length`. */
  function NextIdx(i: nat): (j: nat)
    ensures j < |Tickers|
    ensures i + 1 < |Tickers| ==> j == i + 1
    ensures i == |Tickers| - 1 ==> j == 0
  {
    (i + 1) % |Tickers|
  }

  function Advance(i: nat, n: nat): nat
    decreases n
  {
    if n == 0 then i else Advance(NextIdx(i), n - 1)
  }

  // ---------------------------------------------------------------------------
  // The widget instance.

  class FinancialChart {
    var scalesOpacity: int
    var lineClip: int
    var labelAnim: Label
    var priceInfo: Option<PriceInfo>
    var series: seq<real>
    /** Every setter call and callback made so far, with its time. */
    var log: seq<Event>

    function State(): View
      reads this
    {
      View(scalesOpacity, lineClip, labelAnim, priceInfo, series)
    }

    /** The initial `useState` values. */
    constructor ()
      ensures State() == View(0, 0, Hidden, None, []) && log == []
    {
      scalesOpacity, lineClip, labelAnim, priceInfo, series := 0, 0, Hidden, None, [];
      log := [];
    }

    /** Runs one setter (or the callback) at time `at` and records it. */
    method Emit(at: int, e: Effect)
      modifies this
      ensures log == old(log) + [Event(at, e)]
      ensures State() == Apply(old(State()), e)
    {
      match e {
        case SetScales(o) => scalesOpacity := o;
        case SetLineClip(p) => lineClip := p;
        case SetLabel(l) => labelAnim := l;
        case SetPriceInfo(i) => priceInfo := i;
        case SetSeries(s) => series := s;
        case CycleComplete =>
      }
      log := log + [Event(at, e)];
    }

    /**
     * One guarded setter, `if (isMounted.current) set…(…)`, run at time `now` as step
     * `k` of a plan whose live part is `goal`; `done` are the live steps before `k`,
     * logged after `log0`.
     */
    method Guarded(ghost v0: View, ghost log0: seq<Event>, ghost done: seq<Event>, ghost goal: seq<Event>,
                   ghost plan: seq<Event>, ghost k: nat, now: int, e: Effect, cleanupAt: Option<int>)
      returns (ghost done': seq<Event>)
      requires k < |plan| && plan[k] == Event(now, e)
      requires log == log0 + done && State() == Replay(v0, done)
      requires done + Live(plan[k..], cleanupAt) == goal
      modifies this
      ensures log == log0 + done' && State() == Replay(v0, done')
      ensures done' + Live(plan[k + 1..], cleanupAt) == goal
    {
      ghost var rest, rest' := plan[k..], plan[k + 1..];
      assert rest[1..] == rest';
      assert Live(rest, cleanupAt)
        == (if Mounted(cleanupAt, now) then [rest[0]] else []) + Live(rest', cleanupAt);
      if Mounted(cleanupAt, now) {
        Emit(now, e);
        done' := done + [rest[0]];
        ReplaySnoc(v0, done, rest[0]);
        assert goal == done + ([rest[0]] + Live(rest', cleanupAt));
        assert done' + Live(rest', cleanupAt) == done + ([rest[0]] + Live(rest', cleanupAt));
      } else {
        done' := done;
        assert Live(rest, cleanupAt) == Live(rest', cleanupAt);
      }
    }

    /**
     * The success branch of `runSequence`: the series has arrived at time `t` and the
     * flag was still set when it did.
     */
    method Reveal(ghost v0: View, ghost log0: seq<Event>, ghost done: seq<Event>,
                  t: int, vs: seq<real>, cleanupAt: Option<int>)
      returns (ghost done': seq<Event>)
      requires |vs| > 0 && Mounted(cleanupAt, t)
      requires log == log0 + done && State() == Replay(v0, done)
      modifies this
      ensures log == log0 + done' && State() == Replay(v0, done')
      ensures done' == done + Live(Plan(t, Series(vs)), cleanupAt)
    {
      ghost var plan := Plan(t, Series(vs));
      ghost var goal := done + Live(plan, cleanupAt);
      done' := RevealIn(v0, log0, done, goal, plan, t, vs, cleanupAt);
      var now := t + ScalesInWait + LineInWait + LabelInWait + HoldWait;
      if Mounted(cleanupAt, now) {
        done' := HoldEnd(v0, log0, done', goal, plan, now, cleanupAt);
      } else {
        ghost var tail := plan[5..];
        assert forall i :: 0 <= i < |tail| ==> tail[i].at >= now;
        LiveSilentAfter(tail, cleanupAt, now);
      }
    }

    /** The start of the reveal: series and label data, then scales, line and label in. */
    method RevealIn(ghost v0: View, ghost log0: seq<Event>, ghost done: seq<Event>, ghost goal: seq<Event>,
                    ghost plan: seq<Event>, t: int, vs: seq<real>, cleanupAt: Option<int>)
      returns (ghost done': seq<Event>)
      requires |plan| == 9 && |vs| > 0
      requires plan[0] == Event(t, SetSeries(vs))
      requires plan[1] == Event(t, SetPriceInfo(Some(InfoOf(vs))))
      requires plan[2] == Event(t + ScalesInWait, SetScales(1))
      requires plan[3] == Event(t + ScalesInWait + LineInWait, SetLineClip(100))
      requires plan[4] == Event(t + ScalesInWait + LineInWait + LabelInWait, SetLabel(Enter))
      requires log == log0 + done && State() == Replay(v0, done)
      requires done + Live(plan, cleanupAt) == goal
      modifies this
      ensures log == log0 + done' && State() == Replay(v0, done')
      ensures done' + Live(plan[5..], cleanupAt) == goal
    {
      assert plan[0..] == plan;
      var now := t;
      var last, first := vs[|vs| - 1], vs[0];
      done' := Guarded(v0, log0, done, goal, plan, 0, now, SetSeries(vs), cleanupAt);
      var info := PriceInfo(last, PercentChange(first, last));
      done' := Guarded(v0, log0, done', goal, plan, 1, now, SetPriceInfo(Some(info)), cleanupAt);
      now := now + ScalesInWait;
      done' := Guarded(v0, log0, done', goal, plan, 2, now, SetScales(1), cleanupAt);
      now := now + LineInWait;
      done' := Guarded(v0, log0, done', goal, plan, 3, now, SetLineClip(100), cleanupAt);
      now := now + LabelInWait;
      done' := Guarded(v0, log0, done', goal, plan, 4, now, SetLabel(Enter), cleanupAt);
    }

    /** The end of the hold: label out, line out, scales out, then the callback. */
    method HoldEnd(ghost v0: View, ghost log0: seq<Event>, ghost done: seq<Event>, ghost goal: seq<Event>,
                   ghost plan: seq<Event>, t: int, cleanupAt: Option<int>)
      returns (ghost done': seq<Event>)
      requires |plan| == 9
      requires plan[5] == Event(t, SetLabel(Exit))
      requires plan[6] == Event(t + LabelOutWait, SetLineClip(0))
      requires plan[7] == Event(t + LabelOutWait + LineOutWait, SetScales(0))
      requires plan[8] == Event(t + LabelOutWait + LineOutWait + FinalWait, CycleComplete)
      requires log == log0 + done && State() == Replay(v0, done)
      requires done + Live(plan[5..], cleanupAt) == goal
      modifies this
      ensures log == log0 + done' && State() == Replay(v0, done')
      ensures done' == goal
    {
      var now := t;
      done' := Guarded(v0, log0, done, goal, plan, 5, now, SetLabel(Exit), cleanupAt);
      now := now + LabelOutWait;
      done' := Guarded(v0, log0, done', goal, plan, 6, now, SetLineClip(0), cleanupAt);
      now := now + LineOutWait;
      done' := Guarded(v0, log0, done', goal, plan, 7, now, SetScales(0), cleanupAt);
      now := now + FinalWait;
      done' := Guarded(v0, log0, done', goal, plan, 8, now, CycleComplete, cleanupAt);
      assert plan[9..] == [];
    }

    /**
     * `runSequence` for one ticker: the fetch settles `fetchDelay` ms after `start`
     * with `fetched`; the instance is cleaned up at `cleanupAt`.
     */
    method RunSequence(start: int, fetchDelay: nat, fetched: Fetched, cleanupAt: Option<int>)
      modifies this
      ensures log == old(log) + Trace(start, fetchDelay, fetched, cleanupAt)
      ensures State() == Replay(old(State()), Trace(start, fetchDelay, fetched, cleanupAt))
    {
      ghost var v0, log0 := State(), log;
      var now := start;
      Emit(now, SetScales(0));
      Emit(now, SetLineClip(0));
      Emit(now, SetLabel(Hidden));
      Emit(now, SetPriceInfo(None));
      ghost var done := ResetEvents(start);
      ReplayReset(v0, start);
      now := now + fetchDelay;
      ghost var plan := Plan(now, fetched);
      assert Trace(start, fetchDelay, fetched, cleanupAt) == done + Live(plan, cleanupAt);
      if fetched.Threw? {
        // the catch block
        assert plan == [Event(now, CycleComplete)];
        done := Complete(v0, log0, done, now, cleanupAt);
      } else if !Mounted(cleanupAt, now) {
        LiveSilentAfter(plan, cleanupAt, now);
        assert done + [] == done;
        return;
      } else if fetched.Series? && |fetched.values| > 0 {
        done := Reveal(v0, log0, done, now, fetched.values, cleanupAt);
      } else {
        assert plan == [Event(now + NoDataWait, CycleComplete)];
        done := Complete(v0, log0, done, now + NoDataWait, cleanupAt);
      }
      assert done == Trace(start, fetchDelay, fetched, cleanupAt);
    }

    /** A guarded `onCycleComplete()` at time `t`: the catch block, or the end of the no-data wait. */
    method Complete(ghost v0: View, ghost log0: seq<Event>, ghost done: seq<Event>, t: int, cleanupAt: Option<int>)
      returns (ghost done': seq<Event>)
      requires log == log0 + done && State() == Replay(v0, done)
      modifies this
      ensures log == log0 + done' && State() == Replay(v0, done')
      ensures done' == done + Live([Event(t, CycleComplete)], cleanupAt)
    {
      LiveSingle([Event(t, CycleComplete)], cleanupAt);
      done' := done;
      if Mounted(cleanupAt, t) {
        Emit(t, CycleComplete);
        ReplaySnoc(v0, done, Event(t, CycleComplete));
        done' := done + [Event(t, CycleComplete)];
      }
    }
  }

  /** The resets put every phase flag and the label back to its initial value. */
  lemma ReplayReset(v: View, start: int)
    ensures Replay(v, ResetEvents(start)) == View(0, 0, Hidden, None, v.series)
  {
    var r := ResetEvents(start);
    var v1 := v.(scales := 0);
    var v2 := v1.(clip := 0);
    var v3 := v2.(anim := Hidden);
    assert Replay(v, r) == Replay(v1, r[1..]);
    assert Replay(v1, r[1..]) == Replay(v2, r[2..]);
    assert Replay(v2, r[2..]) == Replay(v3, r[3..]);
    assert Replay(v3, r[3..]) == Replay(v3.(info := None), r[4..]);
  }

  // ---------------------------------------------------------------------------
  // Helper lemmas about Live.

  lemma LiveSingle(evs: seq<Event>, cleanupAt: Option<int>)
    requires |evs| == 1
    ensures Live(evs, cleanupAt) == if Mounted(cleanupAt, evs[0].at) then evs else []
  {
    assert evs[1..] == [];
  }

  lemma {:induction false} LiveAppend(a: seq<Event>, b: seq<Event>, cleanupAt: Option<int>)
    ensures Live(a + b, cleanupAt) == Live(a, cleanupAt) + Live(b, cleanupAt)
  {
    if a == [] {
      assert a + b == b;
    } else {
      assert (a + b)[0] == a[0];
      assert (a + b)[1..] == a[1..] + b;
      LiveAppend(a[1..], b, cleanupAt);
    }
  }

  /** Once the flag reads false at `t`, no event at `t` or later survives. */
  lemma {:induction false} LiveSilentAfter(evs: seq<Event>, cleanupAt: Option<int>, t: int)
    requires !Mounted(cleanupAt, t)
    requires forall i :: 0 <= i < |evs| ==> evs[i].at >= t
    ensures Live(evs, cleanupAt) == []
  {
    if evs != [] {
      LiveSilentAfter(evs[1..], cleanupAt, t);
    }
  }

  lemma {:induction false} ReplaySnoc(v: View, evs: seq<Event>, e: Event)
    ensures Replay(v, evs + [e]) == Apply(Replay(v, evs), e.effect)
    decreases |evs|
  {
    if evs != [] {
      assert (evs + [e])[1..] == evs[1..] + [e];
      ReplaySnoc(Apply(v, evs[0].effect), evs[1..], e);
    }
  }

  lemma {:induction false} ReplayAppend(v: View, a: seq<Event>, b: seq<Event>)
    ensures Replay(v, a + b) == Replay(Replay(v, a), b)
    decreases |a|
  {
    if a == [] {
      assert a + b == b;
    } else {
      assert (a + b)[1..] == a[1..] + b;
      ReplayAppend(Apply(v, a[0].effect), a[1..], b);
    }
  }

  lemma {:induction false} CompletionsAppend(a: seq<Event>, b: seq<Event>)
    ensures Completions(a + b) == Completions(a) + Completions(b)
  {
    if a == [] {
      assert a + b == b;
    } else {
      assert (a + b)[1..] == a[1..] + b;
      CompletionsAppend(a[1..], b);
    }
  }

  // ---------------------------------------------------------------------------
  // What a run does.

  /**
   * The isMounted guard cancels a suffix: of a time-ordered plan, the events that run
   * are a prefix, every one of them finds the flag set, and every dropped one finds
   * it cleared. So the phases that do run keep their order and nothing runs after
   * the cleanup.
   */
  lemma {:induction false} LiveIsPrefix(evs: seq<Event>, cleanupAt: Option<int>)
    requires TimeOrdered(evs)
    ensures |Live(evs, cleanupAt)| <= |evs|
    ensures Live(evs, cleanupAt) == evs[..|Live(evs, cleanupAt)|]
    ensures forall i :: 0 <= i < |Live(evs, cleanupAt)| ==> Mounted(cleanupAt, evs[i].at)
    ensures forall i :: |Live(evs, cleanupAt)| <= i < |evs| ==> !Mounted(cleanupAt, evs[i].at)
  {
    if evs != [] {
      var tail := evs[1..];
      assert TimeOrdered(tail) by {
        forall i, j | 0 <= i < j < |tail| ensures tail[i].at <= tail[j].at {
          assert tail[i] == evs[i + 1] && tail[j] == evs[j + 1];
        }
      }
      LiveIsPrefix(tail, cleanupAt);
      if Mounted(cleanupAt, evs[0].at) {
        assert Live(evs, cleanupAt) == [evs[0]] + Live(tail, cleanupAt);
      } else {
        LiveSilentAfter(tail, cleanupAt, evs[0].at);
        assert Live(evs, cleanupAt) == [];
      }
    }
  }

  /** The plan's timestamps never go backwards. */
  lemma PlanOrdered(t: int, fetched: Fetched)
    ensures TimeOrdered(Plan(t, fetched))
    ensures forall i :: 0 <= i < |Plan(t, fetched)| ==> Plan(t, fetched)[i].at >= t
  {
  }

  /** A run's events are in time order: the resets first, then the plan's live prefix. */
  lemma TraceOrdered(start: int, fetchDelay: nat, fetched: Fetched, cleanupAt: Option<int>)
    ensures TimeOrdered(Trace(start, fetchDelay, fetched, cleanupAt))
  {
    var plan := Plan(start + fetchDelay, fetched);
    PlanOrdered(start + fetchDelay, fetched);
    LiveIsPrefix(plan, cleanupAt);
    var live := Live(plan, cleanupAt);
    var tr := Trace(start, fetchDelay, fetched, cleanupAt);
    assert forall i :: 0 <= i < |live| ==> live[i] == plan[i];
    forall i, j | 0 <= i < j < |tr| ensures tr[i].at <= tr[j].at {
      if j >= 4 {
        assert tr[j] == live[j - 4];
      }
      if i >= 4 {
        assert tr[i] == live[i - 4];
      }
    }
  }

  /** A plan holds exactly one `onCycleComplete`, as its last event, `CycleDelay` after `t`. */
  lemma PlanCompletion(t: int, fetched: Fetched)
    ensures |Plan(t, fetched)| > 0
    ensures Plan(t, fetched)[|Plan(t, fetched)| - 1] == Event(t + CycleDelay(fetched), CycleComplete)
    ensures forall i :: 0 <= i < |Plan(t, fetched)| - 1 ==> Plan(t, fetched)[i].effect != CycleComplete
  {
  }

  /** Counting `onCycleComplete` in a prefix of a sequence whose only one is the last. */
  lemma {:induction false} CompletionsOfPrefix(evs: seq<Event>, k: nat)
    requires 0 < |evs| && k <= |evs|
    requires evs[|evs| - 1].effect == CycleComplete
    requires forall i :: 0 <= i < |evs| - 1 ==> evs[i].effect != CycleComplete
    ensures Completions(evs[..k]) == if k == |evs| then 1 else 0
  {
    if k > 0 {
      var p := evs[..k];
      assert p[0] == evs[0];
      if |evs| == 1 {
        assert p[1..] == [];
      } else {
        var tail := evs[1..];
        assert p[1..] == tail[..k - 1];
        CompletionsOfPrefix(tail, k - 1);
      }
    }
  }

  lemma ResetCompletions(start: int)
    ensures Completions(ResetEvents(start)) == 0
  {
    var reset := ResetEvents(start);
    assert Completions(reset) == Completions(reset[1..]);
    assert Completions(reset[1..]) == Completions(reset[2..]);
    assert Completions(reset[2..]) == Completions(reset[3..]);
    assert Completions(reset[3..]) == Completions(reset[4..]);
    assert reset[4..] == [];
  }

  /** The live part of a plan holds the completion exactly when it is due while mounted. */
  lemma LiveCompletions(t: int, fetched: Fetched, cleanupAt: Option<int>)
    ensures Completions(Live(Plan(t, fetched), cleanupAt))
      == if Mounted(cleanupAt, t + CycleDelay(fetched)) then 1 else 0
  {
    var plan := Plan(t, fetched);
    PlanOrdered(t, fetched);
    PlanCompletion(t, fetched);
    LiveIsPrefix(plan, cleanupAt);
    var live := Live(plan, cleanupAt);
    CompletionsOfPrefix(plan, |live|);
    if |live| < |plan| {
      assert !Mounted(cleanupAt, plan[|plan| - 1].at);
    }
  }

  /**
   * `onCycleComplete` runs at most once: exactly once when the widget is still mounted
   * at its due time (the fetch time plus 0, 1000 or 10600 ms), never otherwise.
   */
  lemma TraceCompletion(start: int, fetchDelay: nat, fetched: Fetched, cleanupAt: Option<int>)
    ensures Completions(Trace(start, fetchDelay, fetched, cleanupAt))
      == if Mounted(cleanupAt, start + fetchDelay + CycleDelay(fetched)) then 1 else 0
  {
    LiveCompletions(start + fetchDelay, fetched, cleanupAt);
    CompletionsAppend(ResetEvents(start), Live(Plan(start + fetchDelay, fetched), cleanupAt));
    ResetCompletions(start);
  }

  /** Whenever `onCycleComplete` runs, it runs at its due time. */
  lemma TraceCompletionTime(start: int, fetchDelay: nat, fetched: Fetched, cleanupAt: Option<int>, i: nat)
    requires i < |Trace(start, fetchDelay, fetched, cleanupAt)|
    requires Trace(start, fetchDelay, fetched, cleanupAt)[i].effect == CycleComplete
    ensures Trace(start, fetchDelay, fetched, cleanupAt)[i].at == start + fetchDelay + CycleDelay(fetched)
  {
    var t := start + fetchDelay;
    var plan := Plan(t, fetched);
    PlanOrdered(t, fetched);
    PlanCompletion(t, fetched);
    LiveIsPrefix(plan, cleanupAt);
    var tr := Trace(start, fetchDelay, fetched, cleanupAt);
    assert i >= 4;
    assert tr[i] == plan[i - 4];
  }

  /** Once the cleanup has run, a run that has not fetched yet does nothing but the resets. */
  lemma TraceAfterCleanup(start: int, fetchDelay: nat, fetched: Fetched, cleanupAt: Option<int>)
    requires !Mounted(cleanupAt, start + fetchDelay)
    ensures Trace(start, fetchDelay, fetched, cleanupAt) == ResetEvents(start)
  {
    var t := start + fetchDelay;
    PlanOrdered(t, fetched);
    LiveSilentAfter(Plan(t, fetched), cleanupAt, t);
  }

  /** If the fetch throws, the phase flags and the label keep their reset values. */
  lemma TraceThrew(v: View, start: int, fetchDelay: nat, cleanupAt: Option<int>)
    ensures Replay(v, Trace(start, fetchDelay, Threw, cleanupAt)) == View(0, 0, Hidden, None, v.series)
  {
    var plan := Plan(start + fetchDelay, Threw);
    LiveSingle(plan, cleanupAt);
    ReplayAppend(v, ResetEvents(start), Live(plan, cleanupAt));
    ReplayReset(v, start);
    var w := View(0, 0, Hidden, None, v.series);
    assert Replay(w, plan) == Replay(w, plan[1..]);
    assert plan[1..] == [];
  }

  /** A time-ordered sequence whose last event finds the flag set runs in full. */
  lemma LiveAll(evs: seq<Event>, cleanupAt: Option<int>)
    requires TimeOrdered(evs) && |evs| > 0 && Mounted(cleanupAt, evs[|evs| - 1].at)
    ensures Live(evs, cleanupAt) == evs
  {
    LiveIsPrefix(evs, cleanupAt);
    assert evs[..|evs|] == evs;
  }

  /** The success plan, run in full from the reset view, ends with the label out and the line hidden. */
  lemma ReplayPlan(w: View, t: int, vs: seq<real>)
    requires |vs| > 0
    ensures Replay(w, Plan(t, Series(vs))) == w.(series := vs, info := Some(InfoOf(vs)), anim := Exit, clip := 0, scales := 0)
  {
    var plan := Plan(t, Series(vs));
    var w1 := w.(series := vs);
    var w2 := w1.(info := Some(InfoOf(vs)));
    var w3 := w2.(scales := 1);
    var w4 := w3.(clip := 100);
    var w5 := w4.(anim := Enter);
    var w6 := w5.(anim := Exit);
    var w7 := w6.(clip := 0);
    var w8 := w7.(scales := 0);
    assert Replay(w, plan) == Replay(w1, plan[1..]);
    assert Replay(w1, plan[1..]) == Replay(w2, plan[2..]);
    assert Replay(w2, plan[2..]) == Replay(w3, plan[3..]);
    assert Replay(w3, plan[3..]) == Replay(w4, plan[4..]);
    assert Replay(w4, plan[4..]) == Replay(w5, plan[5..]);
    assert Replay(w5, plan[5..]) == Replay(w6, plan[6..]);
    assert Replay(w6, plan[6..]) == Replay(w7, plan[7..]);
    assert Replay(w7, plan[7..]) == Replay(w8, plan[8..]);
    assert Replay(w8, plan[8..]) == Replay(w8, plan[9..]);
    assert plan[9..] == [];
  }

  /**
   * A run left mounted to the end shows the new series and its price label, with the
   * label animated out and the line and scales hidden again.
   */
  lemma TraceRevealed(v: View, start: int, fetchDelay: nat, vs: seq<real>, cleanupAt: Option<int>)
    requires |vs| > 0
    requires Mounted(cleanupAt, start + fetchDelay + CycleDelay(Series(vs)))
    ensures Replay(v, Trace(start, fetchDelay, Series(vs), cleanupAt)) == View(0, 0, Exit, Some(InfoOf(vs)), vs)
  {
    var plan := Plan(start + fetchDelay, Series(vs));
    PlanOrdered(start + fetchDelay, Series(vs));
    PlanCompletion(start + fetchDelay, Series(vs));
    LiveAll(plan, cleanupAt);
    ReplayAppend(v, ResetEvents(start), plan);
    ReplayReset(v, start);
    ReplayPlan(View(0, 0, Hidden, None, v.series), start + fetchDelay, vs);
  }

  /** `onCycleComplete` steps the rotation; seven steps bring it back to the same ticker. */
  lemma {:induction false} AdvanceIsMod(i: nat, n: nat)
    requires i < |Tickers|
    ensures Advance(i, n) == (i + n) % |Tickers|
    decreases n
  {
    if n > 0 {
      AdvanceIsMod(NextIdx(i), n - 1);
      assert NextIdx(i) == (i + 1) % 7;
    }
  }
}
