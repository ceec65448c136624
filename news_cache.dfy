/**
 * The headline cache of `get_latest_scraping` and `get_market_summary`
 * (backend/main.py). A scrape keeps up to eight articles of the page; an article
 * whose headline the cache already holds reuses the cached entry, so the time
 * computed the first time the headline was seen stays frozen.
 *
 * The page is an input: the HTTP request and the HTML parse are not modelled, an
 * article is what the parser would find in it, and `Failed` is any exception the
 * request or the parse raises. `datetime.now()` is the parameter `now` (in seconds,
 * as `RelativeTime` counts them) and `strftime("%d/%m/%y")` of it the parameter `date`.
 */
module NewsCache {
  import opened Common
  import opened PyStr
  import opened RelativeTime

  /** `[:8]`: at most this many articles of the page are looked at. */
  const MaxArticles := 8
  /** `NEWS_STACK[:5]`: the summary holds at most this many headlines. */
  const SummarySize := 5

  /** One cached headline, as stored in `NEWS_STACK`. */
  datatype Entry = Entry(headline: string, date: string, time: string, ticker: string, source: string)

  /**
   * One `li.stream-item` of the page: the text of its `h3`, the stripped strings of
   * its publishing `div`, the text of its symbol `span`; `None` where the tag is absent.
   */
  datatype Article = Article(title: Option<string>, publishing: Option<seq<string>>, symbol: Option<string>)

  datatype Page = Failed | Articles(items: seq<Article>)

  /** The cached form of a headline: `text.strip().upper()`. */
  function Headline(title: string): (h: string)
    ensures |h| <= |title|
    ensures Upper(h) == h
  {
    UpperIdempotent(Strip(title));
    Upper(Strip(title))
  }

  /** The index of the first cached entry with headline `h`, or `|stack|` when there is none. */
  function FirstWith(stack: seq<Entry>, h: string): (k: nat)
    ensures k <= |stack|
    ensures forall j :: 0 <= j < k ==> stack[j].headline != h
    ensures k < |stack| ==> stack[k].headline == h
  {
    if stack == [] then 0
    else if stack[0].headline == h then 0
    else 1 + FirstWith(stack[1..], h)
  }

  /** Any entry with the headline means `next(...)` finds one, at or before it. */
  lemma FirstWithFinds(stack: seq<Entry>, h: string, i: nat)
    requires i < |stack| && stack[i].headline == h
    ensures FirstWith(stack, h) <= i
  {
  }

  /** The source of a new entry: the publishing div's first string, upper-cased, else `"YF"`. */
  function SourceOf(publishing: Option<seq<string>>): string
  {
    match publishing
    case None => "YF"
    case Some(parts) => if |parts| > 0 then Upper(parts[0]) else "YF"
  }

  /** The age of a new entry: the publishing div's last string when it has two, else `"0m ago"`. */
  function AgeOf(publishing: Option<seq<string>>): string
  {
    match publishing
    case None => "0m ago"
    case Some(parts) => if |parts| > 1 then parts[|parts| - 1] else "0m ago"
  }

  /** The ticker of a new entry: the symbol's text stripped and without `^`, else `"MKT"`. */
  function TickerOf(symbol: Option<string>): (t: string)
    ensures '^' !in t
  {
    match symbol
    case None => "MKT"
    case Some(text) => RemoveAllChar(Strip(text), '^'); RemoveAll(Strip(text), "^")
  }

  /** The entry built for an article whose headline is not cached. */
  function NewEntry(headline: string, a: Article, now: int, date: string): (e: Entry)
    requires InRange(now)
    ensures e.headline == headline && e.date == date
    ensures |e.time| == 8 && e.time[2] == ':' && e.time[5] == ':'
    ensures '^' !in e.ticker
  {
    Entry(headline, date, ParseRelativeTime(AgeOf(a.publishing), now), TickerOf(a.symbol), SourceOf(a.publishing))
  }

  /**
   * What one article contributes: nothing without an `h3`; the first cached entry with
   * its headline, if any; a new entry otherwise.
   */
  function EntryFor(stack: seq<Entry>, a: Article, now: int, date: string): (r: Option<Entry>)
    requires InRange(now)
    ensures r.Some? <==> a.title.Some?
    ensures r.Some? ==> r.value.headline == Headline(a.title.value)
  {
    if a.title.None? then None
    else
      var h := Headline(a.title.value);
      var k := FirstWith(stack, h);
      if k < |stack| then Some(stack[k]) else Some(NewEntry(h, a, now, date))
  }

  /** `new_entries` after the loop has seen `arts`, against the cache `stack` as it was. */
  function Entries(stack: seq<Entry>, arts: seq<Article>, now: int, date: string): (r: seq<Entry>)
    requires InRange(now)
    ensures |r| <= |arts|
  {
    if arts == [] then []
    else
      var last := EntryFor(stack, arts[|arts| - 1], now, date);
      Entries(stack, arts[..|arts| - 1], now, date) + (if last.Some? then [last.value] else [])
  }

  /** The articles a scrape looks at. */
  function Considered(items: seq<Article>): (r: seq<Article>)
    ensures |r| <= MaxArticles && |r| <= |items| && r == items[..|r|]
    ensures |items| >= MaxArticles ==> |r| == MaxArticles
  {
    if |items| <= MaxArticles then items else items[..MaxArticles]
  }

  /** `NEWS_STACK` after one call of `get_latest_scraping`. */
  function Scrape(stack: seq<Entry>, page: Page, now: int, date: string): (r: seq<Entry>)
    requires InRange(now)
    ensures page.Failed? ==> r == stack
    ensures page.Articles? ==> |r| <= MaxArticles
  {
    match page
    case Failed => stack
    case Articles(items) => Entries(stack, Considered(items), now, date)
  }

  /** The process-wide `NEWS_STACK`. */
  class NewsCache {
    var stack: seq<Entry>

    constructor ()
      ensures stack == []
    {
      stack := [];
    }

    /** `get_latest_scraping()`: rebuilds the cache from the page and returns it. */
    method GetLatestScraping(page: Page, now: int, date: string) returns (r: seq<Entry>)
      requires InRange(now)
      modifies this
      ensures stack == Scrape(old(stack), page, now, date) && r == stack
      ensures page.Failed? ==> stack == old(stack)
      ensures page.Articles? ==> |stack| <= MaxArticles
    {
      if page.Failed? {
        return stack;
      }
      var articles := Considered(page.items);
      var newEntries: seq<Entry> := [];
      var i := 0;
      while i < |articles|
        invariant 0 <= i <= |articles|
        invariant newEntries == Entries(stack, articles[..i], now, date)
      {
        var art := articles[i];
        assert articles[..i + 1][..i] == articles[..i];
        if art.title.Some? {
          var headline := Headline(art.title.value);
          var k := FirstWith(stack, headline);
          if k < |stack| {
            newEntries := newEntries + [stack[k]];
          } else {
            newEntries := newEntries + [NewEntry(headline, art, now, date)];
          }
        }
        i := i + 1;
      }
      assert articles[..i] == articles;
      stack := newEntries;
      r := stack;
    }
  }

  /** `get_market_summary()`: the headlines of the first five cached entries, in order. */
  function MarketSummary(stack: seq<Entry>): (hs: seq<string>)
    ensures |hs| == if |stack| < SummarySize then |stack| else SummarySize
    ensures forall i :: 0 <= i < |hs| ==> hs[i] == stack[i].headline
  {
    var top := if |stack| < SummarySize then stack else stack[..SummarySize];
    seq(|top|, i requires 0 <= i < |top| => top[i].headline)
  }

  // ---------------------------------------------------------------------------
  // Properties of a scrape.

  /** Every article with an `h3` is represented in the new cache. */
  lemma {:induction false} EntriesContain(stack: seq<Entry>, arts: seq<Article>, now: int, date: string, i: nat)
    requires InRange(now) && i < |arts| && arts[i].title.Some?
    ensures EntryFor(stack, arts[i], now, date).value in Entries(stack, arts, now, date)
  {
    var n := |arts| - 1;
    if i < n {
      assert arts[..n][i] == arts[i];
      EntriesContain(stack, arts[..n], now, date, i);
    }
  }

  /** ... and every entry of the new cache comes from one of the articles. */
  lemma {:induction false} EntriesFrom(stack: seq<Entry>, arts: seq<Article>, now: int, date: string, e: Entry)
    requires InRange(now) && e in Entries(stack, arts, now, date)
    ensures exists i :: 0 <= i < |arts| && EntryFor(stack, arts[i], now, date) == Some(e)
  {
    var n := |arts| - 1;
    var last := EntryFor(stack, arts[n], now, date);
    if last.Some? && e == last.value {
      assert EntryFor(stack, arts[n], now, date) == Some(e);
    } else {
      EntriesFrom(stack, arts[..n], now, date, e);
      var i :| 0 <= i < n && EntryFor(stack, arts[..n][i], now, date) == Some(e);
      assert arts[..n][i] == arts[i];
    }
  }

  /**
   * An entry whose headline was already cached is the first cached entry with that
   * headline, unchanged: its time, date, ticker and source are not recomputed.
   */
  lemma ReusedEntryFrozen(stack: seq<Entry>, arts: seq<Article>, now: int, date: string, e: Entry)
    requires InRange(now) && e in Entries(stack, arts, now, date)
    requires FirstWith(stack, e.headline) < |stack|
    ensures e == stack[FirstWith(stack, e.headline)]
  {
    EntriesFrom(stack, arts, now, date, e);
  }

  /**
   * An entry whose headline was not cached is built from its article at this scrape's
   * time: the age is read from the publishing div, or `"0m ago"` in its absence.
   */
  lemma FreshEntryBuilt(stack: seq<Entry>, arts: seq<Article>, now: int, date: string, e: Entry)
    requires InRange(now) && e in Entries(stack, arts, now, date)
    requires FirstWith(stack, e.headline) == |stack|
    ensures exists i :: 0 <= i < |arts| && arts[i].title.Some? && e == NewEntry(Headline(arts[i].title.value), arts[i], now, date)
  {
    EntriesFrom(stack, arts, now, date, e);
  }

  /** Without a publishing div, a new entry's source is `"YF"` and its time is the scrape's. */
  lemma MissingPublishingDefaults(now: int)
    requires InRange(now)
    ensures SourceOf(None) == "YF" && AgeOf(None) == "0m ago"
    ensures ParseRelativeTime(AgeOf(None), now) == Clock(now)
  {
    MinutesAgo(0, now);
    assert Decimal(0) + "m ago" == "0m ago";
  }

  /** The cache after a successful scrape holds at most one entry per article with an `h3`, and at most eight. */
  lemma ScrapeBounded(stack: seq<Entry>, page: Page, now: int, date: string)
    requires InRange(now) && page.Articles?
    ensures |Scrape(stack, page, now, date)| <= MaxArticles
  {
  }

  /** Two caches that give every article the same entry give the same new cache. */
  lemma {:induction false} EntriesAgree(s1: seq<Entry>, s2: seq<Entry>, arts: seq<Article>,
                                        n1: int, n2: int, d1: string, d2: string)
    requires InRange(n1) && InRange(n2)
    requires forall i :: 0 <= i < |arts| ==> EntryFor(s1, arts[i], n1, d1) == EntryFor(s2, arts[i], n2, d2)
    ensures Entries(s1, arts, n1, d1) == Entries(s2, arts, n2, d2)
  {
    if arts != [] {
      var n := |arts| - 1;
      assert forall i :: 0 <= i < n ==> arts[..n][i] == arts[i];
      EntriesAgree(s1, s2, arts[..n], n1, n2, d1, d2);
    }
  }

  predicate DistinctHeadlines(stack: seq<Entry>)
  {
    forall i, j :: 0 <= i < j < |stack| ==> stack[i].headline != stack[j].headline
  }

  /**
   * Scraping the same articles again, at any later time, leaves a cache with distinct
   * headlines exactly as it is: every headline is found, so no time is recomputed.
   */
  lemma RescrapeStable(stack: seq<Entry>, arts: seq<Article>, now1: int, now2: int, d1: string, d2: string)
    requires InRange(now1) && InRange(now2)
    requires DistinctHeadlines(Entries(stack, arts, now1, d1))
    ensures Entries(Entries(stack, arts, now1, d1), arts, now2, d2) == Entries(stack, arts, now1, d1)
  {
    var r1 := Entries(stack, arts, now1, d1);
    forall i | 0 <= i < |arts|
      ensures EntryFor(r1, arts[i], now2, d2) == EntryFor(stack, arts[i], now1, d1)
    {
      if arts[i].title.Some? {
        var e := EntryFor(stack, arts[i], now1, d1).value;
        EntriesContain(stack, arts, now1, d1, i);
        var j :| 0 <= j < |r1| && r1[j] == e;
        FirstWithFinds(r1, e.headline, j);
      }
    }
    EntriesAgree(r1, stack, arts, now2, now1, d2, d1);
  }
}
