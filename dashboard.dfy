/**
 * Small derivations of the dashboard (frontend/src/App.jsx): whether a city's
 * exchange is in session, the colour of the market-sentiment glow, and the index of
 * the headline shown by the news ticker.
 */
module Dashboard {
  import opened Common
  import MarketFeed

  // ---------------------------------------------------------------------------
  // Market hours (`Clock`).

  /** A trading session `[open, close)`, in minutes since local midnight. */
  datatype Session = Session(open: int, close: int)

  /** `MARKET_HOURS`: the sessions of each city's exchange, `None` for any other city. */
  function Sessions(city: string): (s: Option<seq<Session>>)
    ensures s.Some? <==> city == "BS AS" || city == "NY" || city == "LONDON" || city == "TOKIO" || city == "BEIJING"
    ensures s.Some? ==> |s.value| > 0 && forall i :: 0 <= i < |s.value| ==> s.value[i].open < s.value[i].close
    ensures s.Some? ==> forall i :: 0 < i < |s.value| ==> s.value[i - 1].close < s.value[i].open
  {
    if city == "BS AS" then Some([Session(11 * 60, 17 * 60)])
    else if city == "NY" then Some([Session(9 * 60 + 30, 16 * 60)])
    else if city == "LONDON" then Some([Session(8 * 60, 16 * 60 + 30)])
    else if city == "TOKIO" then Some([Session(9 * 60, 11 * 60 + 30), Session(12 * 60 + 30, 15 * 60 + 30)])
    else if city == "BEIJING" then Some([Session(9 * 60 + 30, 11 * 60 + 30), Session(13 * 60, 15 * 60)])
    else None
  }

  /** `sessions.some(([open, close]) => minuteOfDay >= open && minuteOfDay < close)`. */
  function AnyOpen(sessions: seq<Session>, minute: int): bool
  {
    if sessions == [] then false
    else (sessions[0].open <= minute < sessions[0].close) || AnyOpen(sessions[1..], minute)
  }

  lemma {:induction false} AnyOpenMeaning(sessions: seq<Session>, minute: int)
    ensures AnyOpen(sessions, minute) <==>
      exists i :: 0 <= i < |sessions| && sessions[i].open <= minute < sessions[i].close
  {
    if sessions != [] {
      AnyOpenMeaning(sessions[1..], minute);
      assert forall i :: 1 <= i < |sessions| ==> sessions[i] == sessions[1..][i - 1];
    }
  }

  /** `isActive` for local weekday `day` (0 = Sunday) and time `hrs:mins`. */
  predicate IsActive(city: string, day: int, hrs: int, mins: int)
  {
    var minute := hrs * 60 + mins;
    1 <= day <= 5 && Sessions(city).Some? && AnyOpen(Sessions(city).value, minute)
  }

  /**
   * An exchange is open exactly on Monday to Friday, at a minute that lies in one of
   * its half-open sessions; a city without a schedule is never open.
   */
  lemma IsActiveMeaning(city: string, day: int, hrs: int, mins: int)
    ensures IsActive(city, day, hrs, mins) <==>
      1 <= day <= 5 && Sessions(city).Some? &&
      exists i :: 0 <= i < |Sessions(city).value| &&
        Sessions(city).value[i].open <= hrs * 60 + mins < Sessions(city).value[i].close
  {
    if Sessions(city).Some? {
      AnyOpenMeaning(Sessions(city).value, hrs * 60 + mins);
    }
  }

  /** Tokyo breaks for lunch from 11:30 to 12:29; Beijing from 11:30 to 12:59. */
  lemma LunchBreaks(day: int, hrs: int, mins: int)
    requires 11 * 60 + 30 <= hrs * 60 + mins < 12 * 60 + 30
    ensures !IsActive("TOKIO", day, hrs, mins)
    ensures !IsActive("BEIJING", day, hrs, mins) && !IsActive("BEIJING", day, hrs + 1, mins - 30)
  {
    IsActiveMeaning("TOKIO", day, hrs, mins);
    IsActiveMeaning("BEIJING", day, hrs, mins);
    IsActiveMeaning("BEIJING", day, hrs + 1, mins - 30);
  }

  /** Every exchange is already closed at its closing minute. */
  lemma ClosedAtClose(day: int)
    ensures !IsActive("BS AS", day, 17, 0) && !IsActive("NY", day, 16, 0)
    ensures !IsActive("LONDON", day, 16, 30) && !IsActive("TOKIO", day, 15, 30)
    ensures !IsActive("BEIJING", day, 15, 0)
    ensures !IsActive("TOKIO", day, 11, 30) && !IsActive("BEIJING", day, 11, 30)
  {
    IsActiveMeaning("BS AS", day, 17, 0);
    IsActiveMeaning("NY", day, 16, 0);
    IsActiveMeaning("LONDON", day, 16, 30);
    IsActiveMeaning("TOKIO", day, 15, 30);
    IsActiveMeaning("BEIJING", day, 15, 0);
    IsActiveMeaning("TOKIO", day, 11, 30);
    IsActiveMeaning("BEIJING", day, 11, 30);
  }

  /** ... and open at its opening minute on a weekday. */
  lemma OpenAtOpen(day: int)
    requires 1 <= day <= 5
    ensures IsActive("BS AS", day, 11, 0) && IsActive("NY", day, 9, 30)
    ensures IsActive("LONDON", day, 8, 0) && IsActive("TOKIO", day, 9, 0)
    ensures IsActive("TOKIO", day, 12, 30) && IsActive("BEIJING", day, 9, 30)
    ensures IsActive("BEIJING", day, 13, 0)
  {
    IsActiveMeaning("BS AS", day, 11, 0);
    IsActiveMeaning("NY", day, 9, 30);
    IsActiveMeaning("LONDON", day, 8, 0);
    IsActiveMeaning("TOKIO", day, 9, 0);
    IsActiveMeaning("TOKIO", day, 12, 30);
    IsActiveMeaning("BEIJING", day, 9, 30);
    IsActiveMeaning("BEIJING", day, 13, 0);
  }

  // ---------------------------------------------------------------------------
  // Sentiment colour.

  /** `p && p.change && parseFloat(p.change) > 0`: a hole or a non-positive change does not count. */
  predicate Positive(p: Option<MarketFeed.Quote>)
  {
    p.Some? && p.value.change > 0.0
  }

  function PositiveCount(prices: seq<Option<MarketFeed.Quote>>): (n: nat)
    ensures n <= |prices|
  {
    if prices == [] then 0 else (if Positive(prices[0]) then 1 else 0) + PositiveCount(prices[1..])
  }

  /** The share of rising rows; an empty list counts as one row. */
  function Ratio(prices: seq<Option<MarketFeed.Quote>>): (r: real)
    ensures 0.0 <= r <= 1.0
  {
    var total := if |prices| == 0 then 1 else |prices|;
    UnitDivision(PositiveCount(prices) as real, total as real);
    PositiveCount(prices) as real / total as real
  }

  /** `Math.round`: halves round up. */
  function Round(x: real): (n: int)
    ensures n as real - 0.5 <= x < n as real + 0.5
  {
    (x + 0.5).Floor
  }

  datatype Rgb = Rgb(r: int, g: int, b: int)

  /** The glow blends from red `(248, 113, 113)` towards green `(74, 222, 128)` with the ratio. */
  function SentimentColor(prices: seq<Option<MarketFeed.Quote>>): (c: Rgb)
    ensures 74 <= c.r <= 248 && 113 <= c.g <= 222 && 113 <= c.b <= 128
  {
    var ratio := Ratio(prices);
    RoundBounds(248.0 + (74.0 - 248.0) * ratio, 74, 248);
    RoundBounds(113.0 + (222.0 - 113.0) * ratio, 113, 222);
    RoundBounds(113.0 + (128.0 - 113.0) * ratio, 113, 128);
    Rgb(Round(248.0 + (74.0 - 248.0) * ratio),
        Round(113.0 + (222.0 - 113.0) * ratio),
        Round(113.0 + (128.0 - 113.0) * ratio))
  }

  lemma RatioBounds(prices: seq<Option<MarketFeed.Quote>>)
    ensures 0.0 <= Ratio(prices) <= 1.0
    ensures Ratio(prices) == 0.0 <==> PositiveCount(prices) == 0
    ensures Ratio(prices) == 1.0 <==> |prices| > 0 && PositiveCount(prices) == |prices|
  {
    var total := if |prices| == 0 then 1 else |prices|;
    UnitDivision(PositiveCount(prices) as real, total as real);
  }

  lemma UnitDivision(n: real, d: real)
    requires 0.0 <= n <= d && d > 0.0
    ensures 0.0 <= n / d <= 1.0
    ensures n / d == 0.0 <==> n == 0.0
    ensures n / d == 1.0 <==> n == d
  {
  }

  lemma RoundBounds(x: real, lo: int, hi: int)
    requires lo as real <= x <= hi as real
    ensures lo <= Round(x) <= hi
    ensures x == lo as real ==> Round(x) == lo
    ensures x == hi as real ==> Round(x) == hi
  {
  }

  /**
   * The colour stays between the two ends in every channel; it is exactly red when
   * nothing rises and exactly green when every row does.
   */
  lemma SentimentColorBounds(prices: seq<Option<MarketFeed.Quote>>)
    ensures 74 <= SentimentColor(prices).r <= 248
    ensures 113 <= SentimentColor(prices).g <= 222
    ensures 113 <= SentimentColor(prices).b <= 128
    ensures PositiveCount(prices) == 0 ==> SentimentColor(prices) == Rgb(248, 113, 113)
    ensures |prices| > 0 && PositiveCount(prices) == |prices| ==> SentimentColor(prices) == Rgb(74, 222, 128)
  {
    var ratio := Ratio(prices);
    RatioBounds(prices);
    RoundBounds(248.0 + (74.0 - 248.0) * ratio, 74, 248);
    RoundBounds(113.0 + (222.0 - 113.0) * ratio, 113, 222);
    RoundBounds(113.0 + (128.0 - 113.0) * ratio, 113, 128);
  }

  // ---------------------------------------------------------------------------
  // News rotation.

  /** The news-rotation effect's refs and state. */
  class NewsRotation {
    /** `newsCounterRef.current`: ticks so far, never reset. */
    var counter: nat
    var newsIdx: nat
    /** The running interval, with the news length its callback captured. */
    var interval: Option<nat>
    /** Whether the last run of the effect registered a cleanup. */
    var cleanup: bool

    constructor ()
      ensures counter == 0 && newsIdx == 0 && interval == None && !cleanup
      ensures Valid()
    {
      counter, newsIdx, interval, cleanup := 0, 0, None, false;
    }

    /** An interval runs exactly when the run that started it left its cleanup, and never for empty news. */
    predicate Valid()
      reads this
    {
      (interval.Some? <==> cleanup) && (interval.Some? ==> interval.value > 0)
    }

    /**
     * The effect rerunning because `news` changed to a list of `newLength`: the previous
     * run's cleanup stops its interval, so the guard on a running interval never fires
     * and the new interval captures the new length.
     */
    method OnNewsChanged(newLength: nat)
      requires Valid()
      modifies this
      ensures Valid()
      ensures interval == if newLength > 0 then Some(newLength) else None
      ensures counter == old(counter) && newsIdx == old(newsIdx)
    {
      if cleanup {
        interval, cleanup := None, false;
      }
      if interval.Some? {
        return;
      }
      if newLength == 0 {
        return;
      }
      interval, cleanup := Some(newLength), true;
    }

    /** One 6 s tick: the counter moves on and the index wraps around the captured length. */
    method Tick()
      requires Valid() && interval.Some?
      modifies this
      ensures Valid() && interval == old(interval) && cleanup == old(cleanup)
      ensures counter == old(counter) + 1
      ensures newsIdx == counter % interval.value && newsIdx < interval.value
    {
      counter := counter + 1;
      newsIdx := counter % interval.value;
    }
  }

  /** A news list of five shows headlines 1, 2, 3, 4, 0, 1 on the first six ticks. */
  method RotationScenario() returns (shown: seq<nat>)
    ensures shown == [1, 2, 3, 4, 0, 1]
  {
    var rotation := new NewsRotation();
    rotation.OnNewsChanged(5);
    shown := [];
    var k := 0;
    while k < 6
      invariant 0 <= k <= 6
      invariant rotation.Valid() && rotation.interval == Some(5) && rotation.counter == k
      invariant shown == seq(k, i requires 0 <= i < k => (i + 1) % 5)
    {
      rotation.Tick();
      shown := shown + [rotation.newsIdx];
      k := k + 1;
    }
  }
}
