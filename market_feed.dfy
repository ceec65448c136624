/**
 * The price poll of `App` (frontend/src/App.jsx): the first snapshot replaces the
 * price list at once; every later snapshot is applied one row at a time, each row by
 * its own timer, and a row whose price moved since the previous snapshot flashes
 * `'up'` or `'down'` for 800 ms. The same poll then refreshes the news list, minus
 * two sources.
 *
 * Time is a logical clock in milliseconds. The random stagger delays
 * (`Math.random() * 3000`) are inputs below 3000; the fetched JSON is an input too.
 */
module MarketFeed {
  import opened Common

  /** One row of `/api/prices`, with `price` and `change` already parsed. */
  datatype Quote = Quote(symbol: string, price: real, change: real)

  datatype Direction = Up | Down

  /** One row of `/api/market-news`; only the source matters to the poll. */
  datatype NewsItem = NewsItem(headline: string, source: string)

  /** What the prices request produced: a throw, a JSON value that is not an array, or rows. */
  datatype PricesReply = PricesThrew | NotArray | Rows(rows: seq<Quote>)

  /** A pending `setTimeout`. */
  datatype Timer =
    | Stagger(at: int, index: nat, row: Quote, prior: Option<Quote>)
    | FlashClear(at: int, index: nat)

  /** How long a flash stays, in milliseconds. */
  const FlashHold := 800
  /** The stagger delays are drawn from [0, 3000). */
  const MaxStagger := 3000

  /** The flash a row causes, given the row that held its index in the previous snapshot. */
  function FlashOf(prior: Option<Quote>, row: Quote): (r: Option<Direction>)
    ensures r.Some? <==> prior.Some? && prior.value.price != row.price
    ensures r == Some(Up) <==> prior.Some? && row.price > prior.value.price
    ensures r == Some(Down) <==> prior.Some? && row.price < prior.value.price
  {
    match prior
    case None => None
    case Some(before) =>
      if row.price != before.price then
        (if row.price > before.price then Some(Up) else Some(Down))
      else None
  }

  /**
   * `updated = [...current]; updated[i] = p`: writing past the end of a JavaScript
   * array leaves holes (`undefined`) between the old end and `i`.
   */
  function SetAt(s: seq<Option<Quote>>, i: nat, row: Quote): (r: seq<Option<Quote>>)
    ensures |r| == if i < |s| then |s| else i + 1
    ensures r[i] == Some(row)
    ensures forall j :: 0 <= j < |s| && j != i ==> r[j] == s[j]
    ensures forall j :: |s| <= j < |r| && j != i ==> r[j] == None
  {
    if i < |s| then s[i := Some(row)]
    else s + seq(i - |s|, _ => None) + [Some(row)]
  }

  /** The previous snapshot's row at index `i`, if it had one. */
  function PriorAt(prev: seq<Quote>, i: nat): (p: Option<Quote>)
    ensures p.Some? <==> i < |prev|
    ensures p.Some? ==> p.value == prev[i]
  {
    if i < |prev| then Some(prev[i]) else None
  }

  /** The timers a later snapshot schedules at time `now`, one per row, in row order. */
  function StaggerTimers(now: int, rows: seq<Quote>, prev: seq<Quote>, delays: seq<nat>): (r: seq<Timer>)
    requires |delays| == |rows|
    ensures |r| == |rows|
    ensures forall i :: 0 <= i < |r| ==>
      r[i] == Stagger(now + delays[i], i, rows[i], PriorAt(prev, i))
  {
    seq(|rows|, i requires 0 <= i < |rows| => Stagger(now + delays[i], i, rows[i], PriorAt(prev, i)))
  }

  /** The news filter: every source except the two it hides. */
  predicate Shown(item: NewsItem)
  {
    item.source != "StockStory" && item.source != "Associated Press Finance"
  }

  function FilterNews(items: seq<NewsItem>): (r: seq<NewsItem>)
    ensures |r| <= |items|
    ensures forall x :: x in r <==> x in items && Shown(x)
  {
    if items == [] then []
    else (if Shown(items[0]) then [items[0]] else []) + FilterNews(items[1..])
  }

  /** Filtering keeps the order: it distributes over concatenation. */
  lemma {:induction false} FilterNewsAppend(a: seq<NewsItem>, b: seq<NewsItem>)
    ensures FilterNews(a + b) == FilterNews(a) + FilterNews(b)
  {
    if a == [] {
      assert a + b == b;
    } else {
      assert (a + b)[0] == a[0];
      assert (a + b)[1..] == a[1..] + b;
      FilterNewsAppend(a[1..], b);
    }
  }

  /** The state the poll effect touches. */
  class PriceBoard {
    /** `prices`: rows by index, holes as `None`. */
    var prices: seq<Option<Quote>>
    var flashMap: map<nat, Direction>
    /** `prevPricesRef.current`: the last snapshot received. */
    var prevPrices: seq<Quote>
    var news: seq<NewsItem>
    /** Timers scheduled and not yet run, in the order they were scheduled. */
    var timers: seq<Timer>
    var now: int

    constructor (start: int)
      ensures prices == [] && flashMap == map[] && prevPrices == [] && news == []
      ensures timers == [] && now == start
    {
      prices, flashMap, prevPrices, news, timers, now := [], map[], [], [], [], start;
    }

    /** No timer is overdue at time `t`. */
    predicate NoneDueBefore(t: int)
      reads this
    {
      forall j :: 0 <= j < |timers| ==> t <= timers[j].at
    }

    /**
     * One run of `upd` at time `t`: the prices reply, the stagger delays drawn for its
     * rows and the news reply (`None` when that request threw or gave no array).
     */
    method Poll(t: int, reply: PricesReply, delays: seq<nat>, newsReply: Option<seq<NewsItem>>)
      requires now <= t && NoneDueBefore(t)
      requires reply.Rows? ==> |delays| == |reply.rows|
      requires forall i :: 0 <= i < |delays| ==> delays[i] < MaxStagger
      modifies this
      ensures now == t && flashMap == old(flashMap)
      ensures !reply.Rows? ==>
        prices == old(prices) && prevPrices == old(prevPrices) && timers == old(timers) && news == old(news)
      ensures reply.Rows? && |old(prevPrices)| == 0 ==>
        prices == seq(|reply.rows|, i requires 0 <= i < |reply.rows| => Some(reply.rows[i]))
        && timers == old(timers)
      ensures reply.Rows? && |old(prevPrices)| > 0 ==>
        prices == old(prices) && timers == old(timers) + StaggerTimers(t, reply.rows, old(prevPrices), delays)
      ensures reply.Rows? ==> prevPrices == reply.rows
      ensures reply.Rows? ==> news == if newsReply.Some? then FilterNews(newsReply.value) else old(news)
    {
      now := t;
      if !reply.Rows? {
        return;
      }
      var rows := reply.rows;
      var prev := prevPrices;
      if |prev| == 0 {
        prices := seq(|rows|, i requires 0 <= i < |rows| => Some(rows[i]));
      } else {
        ghost var pending := StaggerTimers(t, rows, prev, delays);
        var added: seq<Timer> := [];
        var i := 0;
        while i < |rows|
          invariant 0 <= i <= |rows|
          invariant added == pending[..i]
        {
          added := added + [Stagger(t + delays[i], i, rows[i], PriorAt(prev, i))];
          assert pending[..i + 1] == pending[..i] + [pending[i]];
          i := i + 1;
        }
        assert pending[..|rows|] == pending;
        timers := timers + added;
      }
      prevPrices := rows;
      if newsReply.Some? {
        news := FilterNews(newsReply.value);
      }
    }

    /** Runs the pending timer `k`, which must be the earliest one. */
    method Fire(k: nat)
      requires k < |timers| && now <= timers[k].at
      requires forall j :: 0 <= j < |timers| ==> timers[k].at <= timers[j].at
      modifies this
      ensures now == old(timers[k].at) && prevPrices == old(prevPrices) && news == old(news)
      ensures old(timers[k]).Stagger? ==>
        var tm := old(timers[k]);
        prices == SetAt(old(prices), tm.index, tm.row)
        && (match FlashOf(tm.prior, tm.row)
            case None => flashMap == old(flashMap)
              && timers == old(timers[..k] + timers[k + 1..])
            case Some(d) =>
              flashMap == old(flashMap)[tm.index := d] && timers == old(timers[..k] + timers[k + 1..]) + [FlashClear(tm.at + FlashHold, tm.index)])
      ensures old(timers[k]).FlashClear? ==>
        prices == old(prices) && flashMap == old(flashMap) - {old(timers[k]).index}
        && timers == old(timers[..k] + timers[k + 1..])
    {
      var tm := timers[k];
      timers := timers[..k] + timers[k + 1..];
      now := tm.at;
      match tm {
        case Stagger(at, i, row, prior) =>
          prices := SetAt(prices, i, row);
          var dir := FlashOf(prior, row);
          if dir.Some? {
            flashMap := flashMap[i := dir.value];
            timers := timers + [FlashClear(at + FlashHold, i)];
          }
        case FlashClear(_, i) =>
          flashMap := flashMap - {i};
      }
    }

    /** The effect's cleanup: the stagger timers are cleared, the flash timers are not. */
    method Dispose()
      modifies this
      ensures timers == Unstaggered(old(timers))
      ensures prices == old(prices) && flashMap == old(flashMap) && prevPrices == old(prevPrices)
      ensures news == old(news) && now == old(now)
    {
      var pending, kept: seq<Timer> := timers, [];
      var i := 0;
      while i < |pending|
        invariant 0 <= i <= |pending|
        invariant kept == Unstaggered(pending[..i])
      {
        assert Unstaggered(pending[..i + 1]) == kept + Unstaggered([pending[i]]) by {
          assert pending[..i + 1] == pending[..i] + [pending[i]];
          UnstaggeredAppend(pending[..i], [pending[i]]);
          assert [pending[i]][1..] == [];
        }
        if pending[i].FlashClear? {
          kept := kept + [pending[i]];
        }
        i := i + 1;
      }
      assert pending[..|pending|] == pending;
      timers := kept;
    }
  }

  /** The timers a cleanup leaves behind. */
  function Unstaggered(ts: seq<Timer>): (r: seq<Timer>)
    ensures forall x :: x in r <==> x in ts && x.FlashClear?
  {
    if ts == [] then [] else (if ts[0].FlashClear? then [ts[0]] else []) + Unstaggered(ts[1..])
  }

  lemma {:induction false} UnstaggeredAppend(a: seq<Timer>, b: seq<Timer>)
    ensures Unstaggered(a + b) == Unstaggered(a) + Unstaggered(b)
  {
    if a == [] {
      assert a + b == b;
    } else {
      assert (a + b)[0] == a[0];
      assert (a + b)[1..] == a[1..] + b;
      UnstaggeredAppend(a[1..], b);
    }
  }

  // ---------------------------------------------------------------------------
  // The stagger converges.

  /** The price list after the stagger timers of `rows` run in the order `order`. */
  function ApplyInOrder(s: seq<Option<Quote>>, rows: seq<Quote>, order: seq<nat>): seq<Option<Quote>>
    requires forall k :: 0 <= k < |order| ==> order[k] < |rows|
    decreases |order|
  {
    if order == [] then s
    else ApplyInOrder(SetAt(s, order[0], rows[order[0]]), rows, order[1..])
  }

  /**
   * Whatever order the timers fire in, each index they cover ends up holding its new
   * row, and every other index keeps its value.
   */
  lemma {:induction false} ApplyInOrderMeaning(s: seq<Option<Quote>>, rows: seq<Quote>, order: seq<nat>)
    requires forall k :: 0 <= k < |order| ==> order[k] < |rows|
    decreases |order|
    ensures |ApplyInOrder(s, rows, order)| >= |s|
    ensures forall i :: 0 <= i < |ApplyInOrder(s, rows, order)| && i in order ==>
      ApplyInOrder(s, rows, order)[i] == Some(rows[i])
    ensures forall i :: 0 <= i < |s| && i !in order ==> ApplyInOrder(s, rows, order)[i] == s[i]
    ensures forall i :: |s| <= i < |ApplyInOrder(s, rows, order)| && i !in order ==>
      ApplyInOrder(s, rows, order)[i] == None
    ensures forall i :: i in order ==> i < |ApplyInOrder(s, rows, order)|
  {
    if order != [] {
      var s' := SetAt(s, order[0], rows[order[0]]);
      ApplyInOrderMeaning(s', rows, order[1..]);
      assert forall i :: i in order ==> i == order[0] || i in order[1..];
    }
  }

  /**
   * After a later snapshot, once every row's timer has run (in any order), the list
   * holds the snapshot's rows at their indices.
   */
  lemma StaggerConverges(s: seq<Option<Quote>>, rows: seq<Quote>, order: seq<nat>)
    requires forall k :: 0 <= k < |order| ==> order[k] < |rows|
    requires forall i :: 0 <= i < |rows| ==> i in order
    ensures |ApplyInOrder(s, rows, order)| >= |rows|
    ensures forall i :: 0 <= i < |rows| ==> ApplyInOrder(s, rows, order)[i] == Some(rows[i])
  {
    ApplyInOrderMeaning(s, rows, order);
    if |rows| > 0 {
      assert |rows| - 1 in order;
    }
  }
}
