/**
 * Symbol handling of the backend (backend/main.py): `fetch_ticker_data`, which turns
 * one ticker's price history into a price row with the `^` of index symbols removed,
 * `get_prices`, which does so for the fifteen tickers of the price board, and
 * `get_asset_data`, the assistant's lookup tool, which maps `btc` to `BTC-USD`.
 *
 * What yfinance returns is an input; an exception it raises is the `Threw` case.
 * Prices are exact reals: the two-decimal formatting of the replies is not modelled.
 */
module Tickers {
  import opened Common
  import opened PyStr

  /** `t.replace("^", "")`. */
  function StripCaret(t: string): (r: string)
    ensures '^' !in r && |r| <= |t|
  {
    RemoveAllChar(t, '^');
    RemoveAll(t, "^")
  }

  /** A symbol without `^` is left alone, so stripping twice is stripping once. */
  lemma StripCaretFixed(t: string)
    requires '^' !in t
    ensures StripCaret(t) == t
  {
    forall i | 0 <= i <= |t|
      ensures !StartsWith(t[i..], "^")
    {
      if i < |t| {
        assert t[i..][0] == t[i];
      }
    }
    RemoveAllAbsent(t, "^");
  }

  lemma StripCaretIdempotent(t: string)
    ensures StripCaret(StripCaret(t)) == StripCaret(t)
  {
    StripCaretFixed(StripCaret(t));
  }

  /** An index symbol loses its leading caret: `^GSPC` is shown as `GSPC`. */
  lemma StripCaretIndex(name: string)
    requires '^' !in name
    ensures StripCaret("^" + name) == name
  {
    assert StartsWith("^" + name, "^");
    assert ("^" + name)[1..] == name;
    StripCaretFixed(name);
  }

  // ---------------------------------------------------------------------------
  // `fetch_ticker_data`.

  /** What `yf.Ticker(t)` yields: the closes of the last two days and `info`'s market price. */
  datatype History = Threw | History(closes: seq<real>, marketPrice: Option<real>)

  /** A percentage change; `NonFinite` is the `inf`/`nan` of a division by a zero close. */
  datatype Change = Finite(pct: real) | NonFinite

  /** One row of `/api/prices`. */
  datatype PriceRow = PriceRow(symbol: string, price: real, change: Change)

  function FetchTickerData(t: string, h: History): (r: PriceRow)
    ensures r.symbol == StripCaret(t)
    ensures h.Threw? ==> r.price == 0.0 && r.change == Finite(0.0)
    ensures h.History? && |h.closes| < 2 ==> r.change == Finite(0.0)
    ensures h.History? && |h.closes| >= 2 ==> r.price == h.closes[|h.closes| - 1]
  {
    match h
    case Threw => PriceRow(StripCaret(t), 0.0, Finite(0.0))
    case History(closes, marketPrice) =>
      if |closes| < 2 then
        PriceRow(StripCaret(t), if marketPrice.Some? then marketPrice.value else 0.0, Finite(0.0))
      else
        var lastClose := closes[|closes| - 2];
        var current := closes[|closes| - 1];
        PriceRow(StripCaret(t), current,
                 if lastClose == 0.0 then NonFinite else Finite((current - lastClose) / lastClose * 100.0))
  }

  /**
   * With two closes the change has the sign of the move, relative to a positive previous
   * close, and is exactly the percentage that brings that close to the current one.
   */
  lemma ChangeMeaning(t: string, closes: seq<real>, marketPrice: Option<real>)
    requires |closes| >= 2 && closes[|closes| - 2] > 0.0
    ensures FetchTickerData(t, History(closes, marketPrice)).change.Finite?
    ensures var last, cur := closes[|closes| - 2], closes[|closes| - 1];
      var pct := FetchTickerData(t, History(closes, marketPrice)).change.pct;
      (pct > 0.0 <==> cur > last) && (pct == 0.0 <==> cur == last) && last + last * pct / 100.0 == cur
  {
    var last, cur := closes[|closes| - 2], closes[|closes| - 1];
    var pct := (cur - last) / last * 100.0;
    SignOfRatio(cur - last, last);
    assert last * pct / 100.0 == cur - last;
  }

  lemma SignOfRatio(a: real, b: real)
    requires b > 0.0
    ensures (a / b > 0.0 <==> a > 0.0) && (a / b == 0.0 <==> a == 0.0)
  {
    if a > 0.0 {
      assert a / b * b == a;
    }
    if a / b > 0.0 {
      assert a == a / b * b;
    }
  }

  /** The tickers `get_prices` asks for, in board order. */
  const Board: seq<string> := [
    "GLD", "SLV", "COPX", "USO", "URA",
    "EEM", "XLV", "XLB", "EWZ", "EWJ",
    "^GSPC", "^DJI", "^IXIC", "^RUT", "^MERV"
  ]

  /** `get_prices()`: one row per board ticker, in board order, whatever each lookup gives. */
  function GetPrices(histories: seq<History>): (rows: seq<PriceRow>)
    requires |histories| == |Board|
    ensures |rows| == |Board|
    ensures forall i :: 0 <= i < |rows| ==> rows[i] == FetchTickerData(Board[i], histories[i])
  {
    seq(|Board|, i requires 0 <= i < |Board| => FetchTickerData(Board[i], histories[i]))
  }

  /** The board shows the five index symbols without their caret, whatever the lookups give. */
  lemma BoardSymbols(histories: seq<History>)
    requires |histories| == |Board|
    ensures GetPrices(histories)[10].symbol == "GSPC" && GetPrices(histories)[11].symbol == "DJI"
    ensures GetPrices(histories)[12].symbol == "IXIC" && GetPrices(histories)[13].symbol == "RUT"
    ensures GetPrices(histories)[14].symbol == "MERV"
  {
    IndexSymbol(Board[10], "GSPC");
    IndexSymbol(Board[11], "DJI");
    IndexSymbol(Board[12], "IXIC");
    IndexSymbol(Board[13], "RUT");
    IndexSymbol(Board[14], "MERV");
  }

  lemma IndexSymbol(t: string, name: string)
    requires t == "^" + name && '^' !in name
    ensures StripCaret(t) == name
  {
    StripCaretIndex(name);
  }

  // ---------------------------------------------------------------------------
  // `get_asset_data`.

  /** The symbol looked up: `BTC-USD` for any casing of `btc`, the ticker itself otherwise. */
  function AssetSymbol(t: string): (s: string)
    ensures Upper(t) == "BTC" ==> s == "BTC-USD"
    ensures Upper(t) != "BTC" ==> s == t
  {
    if Upper(t) == "BTC" then "BTC-USD" else t
  }

  /** Mapping is idempotent: `BTC-USD` is not itself mapped again. */
  lemma AssetSymbolIdempotent(t: string)
    ensures AssetSymbol(AssetSymbol(t)) == AssetSymbol(t)
  {
    if Upper(t) == "BTC" {
      assert |Upper("BTC-USD")| == 7;
    }
  }

  /** `btc`, `Btc` and `BTC` all become `BTC-USD`. */
  lemma BitcoinAliases()
    ensures AssetSymbol("btc") == "BTC-USD" && AssetSymbol("Btc") == "BTC-USD" && AssetSymbol("BTC") == "BTC-USD"
  {
    assert Upper("btc") == "BTC";
    assert Upper("Btc") == "BTC";
    assert Upper("BTC") == "BTC";
  }

  /** A field of the reply: a number, or the string `"N/A"`. */
  datatype Field = Num(value: real) | NA

  datatype AssetReply = AssetError | Asset(symbol: string, price: Field, beta: Field, changePct: real)

  /** `data.get(key, default)`. */
  function Get(info: map<string, real>, key: string, default: Field): Field
  {
    if key in info then Num(info[key]) else default
  }

  /**
   * `get_asset_data(t)`, given `asset.info` as a map of its numeric fields, or `None`
   * when the lookup raises.
   */
  function GetAssetData(t: string, info: Option<map<string, real>>): (r: AssetReply)
    ensures info.None? <==> r.AssetError?
    ensures r.Asset? ==> r.symbol == AssetSymbol(t)
    ensures r.Asset? ==> (r.price == NA <==> "currentPrice" !in info.value && "regularMarketPrice" !in info.value)
    ensures r.Asset? && "currentPrice" in info.value ==> r.price == Num(info.value["currentPrice"])
    ensures r.Asset? && "currentPrice" !in info.value && "regularMarketPrice" in info.value ==>
      r.price == Num(info.value["regularMarketPrice"])
  {
    match info
    case None => AssetError
    case Some(data) =>
      Asset(AssetSymbol(t),
            Get(data, "currentPrice", Get(data, "regularMarketPrice", NA)),
            Get(data, "beta", NA),
            if "regularMarketChangePercent" in data then data["regularMarketChangePercent"] else 0.0)
  }
}
