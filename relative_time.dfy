/**
 * `parse_relative_time` (backend/main.py): turns a scraped age such as `"25m ago"`
 * into the wall-clock time `HH:MM:SS` it denotes.
 *
 * `datetime.now()` is a parameter: an instant is a count of whole seconds since
 * `datetime.min` (0001-01-01 00:00:00); sub-second digits never reach the output.
 */
module RelativeTime {
  import opened Common
  import opened PyStr

  const SecondsPerDay := 86400
  /** Days from `datetime.min` to 10000-01-01: an instant is valid below this many days' seconds. */
  const DaysInRange := 3652059

  /** Whether `datetime` can represent the instant; outside it, arithmetic raises `OverflowError`. */
  predicate InRange(t: int)
  {
    0 <= t < DaysInRange * SecondsPerDay
  }

  /** The age string after `lower()`, `replace('ago', '')` and `strip()`. */
  function Clean(rel: string): (c: string)
    ensures |c| <= |rel|
  {
    Strip(RemoveAll(Lower(rel), "ago"))
  }

  /**
   * The seconds to subtract from now: minutes when the cleaned string holds an `m`,
   * else hours when it holds an `h`, else none; `None` when `int` rejects the part
   * before the marker.
   */
  function Offset(rel: string): (o: Option<int>)
    ensures 'm' !in Clean(rel) && 'h' !in Clean(rel) ==> o == Some(0)
    ensures o.None? ==> 'm' in Clean(rel) || 'h' in Clean(rel)
  {
    var c := Clean(rel);
    if 'm' in c then
      (match ParseInt(BeforeFirst(c, 'm'))
       case Some(n) => Some(n * 60)
       case None => None)
    else if 'h' in c then
      (match ParseInt(BeforeFirst(c, 'h'))
       case Some(n) => Some(n * 3600)
       case None => None)
    else Some(0)
  }

  /** The instant `parse_relative_time` formats: now minus the offset, or now when that fails. */
  function Shifted(rel: string, now: int): (t: int)
    requires InRange(now)
    ensures InRange(t)
  {
    match Offset(rel)
    case Some(d) => if InRange(now - d) then now - d else now
    case None => now
  }

  /** Two digits, zero-padded, as `%H`, `%M` and `%S` print them. */
  function Pad2(n: nat): (s: string)
    requires n < 100
    ensures |s| == 2 && AllDigits(s)
  {
    [DigitChar(n / 10), DigitChar(n % 10)]
  }

  /** `strftime("%H:%M:%S")` of an instant. */
  function Clock(t: nat): (s: string)
    ensures |s| == 8 && s[2] == ':' && s[5] == ':'
  {
    var sod := t % SecondsPerDay;
    Pad2(sod / 3600) + ":" + Pad2(sod % 3600 / 60) + ":" + Pad2(sod % 60)
  }

  /** Reads a `HH:MM:SS` string back into seconds since midnight. */
  function ReadClock(s: string): int
    requires |s| == 8 && AllDigits(s[..2]) && AllDigits(s[3..5]) && AllDigits(s[6..])
  {
    DigitsValue(s[..2]) * 3600 + DigitsValue(s[3..5]) * 60 + DigitsValue(s[6..])
  }

  lemma Pad2Value(n: nat)
    requires n < 100
    ensures DigitsValue(Pad2(n)) == n
  {
    var s := Pad2(n);
    var hi := s[..1];
    assert hi == [DigitChar(n / 10)];
    assert hi[..0] == [];
    assert DigitsValue(hi) == DigitsValue(hi[..0]) * 10 + DigitValue(hi[0]);
    assert DigitsValue(hi) == n / 10;
    assert DigitsValue(s) == DigitsValue(hi) * 10 + DigitValue(s[1]);
  }

  /** The printed time is the instant's time of day, to the second. */
  lemma ClockRoundTrip(t: nat)
    ensures ReadClock(Clock(t)) == t % SecondsPerDay
  {
    var sod := t % SecondsPerDay;
    var s := Clock(t);
    assert s[..2] == Pad2(sod / 3600);
    assert s[3..5] == Pad2(sod % 3600 / 60);
    assert s[6..] == Pad2(sod % 60);
    Pad2Value(sod / 3600);
    Pad2Value(sod % 3600 / 60);
    Pad2Value(sod % 60);
  }

  /** `parse_relative_time(rel)` at instant `now`. */
  function ParseRelativeTime(rel: string, now: int): (s: string)
    requires InRange(now)
    ensures |s| == 8 && s[2] == ':' && s[5] == ':'
  {
    Clock(Shifted(rel, now))
  }

  // ---------------------------------------------------------------------------
  // What the parse does with the strings the scraper sees.

  lemma {:induction false} RemoveAllKeep(a: string, b: string, p: string)
    requires |p| > 0 && forall i :: 0 <= i < |a| ==> a[i] != p[0]
    ensures RemoveAll(a + b, p) == a + RemoveAll(b, p)
    decreases |a|
  {
    if |a| > 0 {
      var s := a + b;
      assert s[0] == a[0];
      assert !StartsWith(s, p) by {
        if |p| <= |s| { assert s[..|p|][0] == a[0]; }
      }
      assert RemoveAll(s, p) == [s[0]] + RemoveAll(s[1..], p);
      assert s[1..] == a[1..] + b;
      RemoveAllKeep(a[1..], b, p);
      calc {
        RemoveAll(s, p);
        [a[0]] + RemoveAll(a[1..] + b, p);
        [a[0]] + (a[1..] + RemoveAll(b, p));
        { assert a == [a[0]] + a[1..]; }
        a + RemoveAll(b, p);
      }
    } else {
      assert a + b == b;
    }
  }

  lemma {:induction false} BeforeFirstAfter(a: string, c: char, b: string)
    requires c !in a
    ensures BeforeFirst(a + [c] + b, c) == a
    decreases |a|
  {
    var s := a + [c] + b;
    if |a| > 0 {
      assert s[0] == a[0] && a[0] != c;
      assert s[1..] == a[1..] + [c] + b;
      BeforeFirstAfter(a[1..], c, b);
    } else {
      assert s[0] == c;
    }
  }

  lemma LowerUnchanged(s: string)
    requires forall i :: 0 <= i < |s| ==> !('A' <= s[i] <= 'Z')
    ensures Lower(s) == s
  {
  }

  lemma RemoveAllSelf(p: string)
    requires |p| > 0
    ensures RemoveAll(p, p) == []
  {
    assert StartsWith(p, p);
    assert p[|p|..] == [];
  }

  /** Removing `p` from `y + p`, where `p`'s first letter is not in `y`, leaves `y`. */
  lemma RemoveTail(y: string, p: string)
    requires |p| > 0 && forall i :: 0 <= i < |y| ==> y[i] != p[0]
    ensures RemoveAll(y + p, p) == y
  {
    RemoveAllKeep(y, p, p);
    RemoveAllSelf(p);
    assert y + [] == y;
  }

  lemma AppendSpaceNoA(x: string)
    requires forall i :: 0 <= i < |x| ==> x[i] != 'a'
    ensures forall i :: 0 <= i < |x + " "| ==> (x + " ")[i] != "ago"[0]
  {
  }

  lemma AgoSplit(x: string)
    ensures x + " ago" == (x + " ") + "ago"
  {
  }

  /** Removing `"ago"` from `"<x> ago"`, for `x` without an `a`, leaves `"<x> "`. */
  lemma RemoveAgo(x: string)
    requires forall i :: 0 <= i < |x| ==> x[i] != 'a'
    ensures RemoveAll(x + " ago", "ago") == x + " "
  {
    AppendSpaceNoA(x);
    AgoSplit(x);
    RemoveTail(x + " ", "ago");
  }

  /** `strip` of a string that only has one trailing space. */
  lemma StripTrailingSpace(x: string)
    requires |x| > 0 && !IsSpace(x[0]) && !IsSpace(x[|x| - 1])
    ensures Strip(x + " ") == x
  {
    var r := x + " ";
    assert FirstNonSpace(r, 0) == 0;
    assert EndNonSpace(r, 0, |r|) == EndNonSpace(r, 0, |r| - 1) == |r| - 1;
    assert r[0..|r| - 1] == x;
  }

  /** `"<x> ago"` cleans to `x` when `x` has no capital, no `a` and no surrounding space. */
  lemma CleanOf(x: string)
    requires |x| > 0 && !IsSpace(x[0]) && !IsSpace(x[|x| - 1])
    requires forall i :: 0 <= i < |x| ==> x[i] != 'a' && !('A' <= x[i] <= 'Z')
    ensures Clean(x + " ago") == x
  {
    assert forall i :: 0 <= i < |x + " ago"| ==> !('A' <= (x + " ago")[i] <= 'Z');
    LowerUnchanged(x + " ago");
    RemoveAgo(x);
    StripTrailingSpace(x);
  }

  /** The cleaned form of `"<n><unit> ago"` is `"<n><unit>"`, for a lower-case unit letter. */
  lemma CleanAgo(n: nat, unit: char)
    requires 'a' < unit <= 'z'
    ensures Clean(Decimal(n) + [unit] + " ago") == Decimal(n) + [unit]
  {
    var x := Decimal(n) + [unit];
    assert forall i :: 0 <= i < |x| ==> x[i] != 'a' && !('A' <= x[i] <= 'Z');
    CleanOf(x);
  }

  /** The offset of an age whose cleaned form is an integer followed by its unit letter. */
  lemma {:induction false} OffsetOfClean(rel: string, d: string, unit: char, n: int)
    requires unit == 'm' || unit == 'h'
    requires Clean(rel) == d + [unit] && 'm' !in d && 'h' !in d && ParseInt(d) == Some(n)
    ensures Offset(rel) == Some(if unit == 'm' then n * 60 else n * 3600)
  {
    var c := d + [unit];
    assert c + [] == c;
    BeforeFirstAfter(d, unit, []);
    assert unit in c;
  }

  lemma DecimalNoMarker(n: nat)
    ensures 'm' !in Decimal(n) && 'h' !in Decimal(n)
  {
    var d := Decimal(n);
    assert forall i :: 0 <= i < |d| ==> IsDigit(d[i]);
  }

  /** A non-negative offset moves the instant back, unless that leaves `datetime`'s range. */
  lemma ShiftedBy(rel: string, now: int, d: int)
    requires InRange(now) && Offset(rel) == Some(d) && d >= 0
    ensures Shifted(rel, now) == if d <= now then now - d else now
  {
  }

  /** `"<n>m ago"` means `n` minutes. */
  lemma MinutesOffset(n: nat)
    ensures Offset(Decimal(n) + "m ago") == Some(n * 60)
  {
    var d := Decimal(n);
    assert d + "m ago" == d + ['m'] + " ago";
    CleanAgo(n, 'm');
    DecimalNoMarker(n);
    ParseDecimal(n);
    OffsetOfClean(d + "m ago", d, 'm', n);
  }

  /** `"<n>h ago"` means `n` hours. */
  lemma HoursOffset(n: nat)
    ensures Offset(Decimal(n) + "h ago") == Some(n * 3600)
  {
    var d := Decimal(n);
    assert d + "h ago" == d + ['h'] + " ago";
    CleanAgo(n, 'h');
    DecimalNoMarker(n);
    ParseDecimal(n);
    OffsetOfClean(d + "h ago", d, 'h', n);
  }

  /** `"<n>m ago"` gives the time `n` minutes ago, or now when that is before `datetime.min`. */
  lemma MinutesAgo(n: nat, now: int)
    requires InRange(now)
    ensures ParseRelativeTime(Decimal(n) + "m ago", now) == Clock(if n * 60 <= now then now - n * 60 else now)
  {
    MinutesOffset(n);
    ShiftedBy(Decimal(n) + "m ago", now, n * 60);
  }

  /** `"<n>h ago"` gives the time `n` hours ago, or now when that is before `datetime.min`. */
  lemma HoursAgo(n: nat, now: int)
    requires InRange(now)
    ensures ParseRelativeTime(Decimal(n) + "h ago", now) == Clock(if n * 3600 <= now then now - n * 3600 else now)
  {
    HoursOffset(n);
    ShiftedBy(Decimal(n) + "h ago", now, n * 3600);
  }

  /** An `m` whose prefix `int` rejects makes the whole offset fail, whatever follows. */
  lemma {:induction false} MinutesRejected(rel: string, b: string, rest: string)
    requires Clean(rel) == b + ['m'] + rest && 'm' !in b && ParseInt(b) == None
    ensures Offset(rel) == None
  {
    BeforeFirstAfter(b, 'm', rest);
    assert 'm' in Clean(rel) by {
      assert Clean(rel)[|b|] == 'm';
    }
  }

  lemma CleanMixed()
    ensures Clean("1h 30m ago") == "1h 30m"
  {
    var c := "1h 30m";
    CleanOf(c);
    assert c + " ago" == "1h 30m ago";
  }

  lemma HoursPrefixRejected()
    ensures ParseInt("1h 30") == None
  {
    var b := "1h 30";
    StripTrimmed(b);
    assert !IsDigit(b[1]) && b[1] != '_';
  }

  /**
   * The `m` test comes first: in `"1h 30m ago"` the part before the `m` is `"1h 30"`,
   * which `int` rejects, so the time is now.
   */
  lemma MinuteMarkerFirst(now: int)
    requires InRange(now)
    ensures ParseRelativeTime("1h 30m ago", now) == Clock(now)
  {
    CleanMixed();
    HoursPrefixRejected();
    assert "1h 30m" == "1h 30" + ['m'] + [];
    MinutesRejected("1h 30m ago", "1h 30", []);
  }

  /** An age whose cleaned text holds neither marker, such as `"just now"`, is now. */
  lemma NoMarker(rel: string, now: int)
    requires InRange(now) && 'm' !in Clean(rel) && 'h' !in Clean(rel)
    ensures ParseRelativeTime(rel, now) == Clock(now)
  {
  }
}
