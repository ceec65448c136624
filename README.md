# LED-wall market dashboard, modelled in Dafny

The system is a market dashboard for an LED wall. A React page
(`frontend/src/App.jsx`) rotates an intraday chart through seven tickers and
merges price snapshots row by row, with up/down flashes. It also scrolls news
headlines in sync, shows which exchanges are in session, tints a glow by market
sentiment and draws a voice waveform. A WebSocket channel drives the page's "AI
mode". A FastAPI backend (`backend/main.py`) keeps the list of connected dashboards
and broadcasts commands to them. It also scrapes headlines into a cache that freezes
each headline's time, parses ages such as `"25m ago"` and normalises ticker symbols.

The model is one Dafny module per component:

| file | module | models |
|---|---|---|
| `common.dfy` | `Common` | `Option` |
| `chart_reveal.dfy` | `ChartReveal` | `FinancialChart.runSequence` and the rotation index |
| `market_feed.dfy` | `MarketFeed` | the price poll: first load, staggered rows, flashes, news filter |
| `marquee.dfy` | `Marquee` | headline overflow, shared `maxDuration`, keyframes, `cycleKey` ticks |
| `event_channel.dfy` | `EventChannel` | the WebSocket effect: dispatch, audio end, reconnect |
| `waveform.dfy` | `Waveform` | `AIWaveform.generatePath` |
| `dashboard.dfy` | `Dashboard` | market hours, sentiment colour, news rotation |
| `pystr.dfy` | `PyStr` | the Python string operations the backend uses |
| `relative_time.dfy` | `RelativeTime` | `parse_relative_time` |
| `news_cache.dfy` | `NewsCache` | `get_latest_scraping`'s cache merge, `get_market_summary` |
| `tickers.dfy` | `Tickers` | `fetch_ticker_data`, `get_prices`, `get_asset_data` |
| `connections.dfy` | `Connections` | `ConnectionManager` |

**Time.** Time is a logical clock. On the page it counts milliseconds: every
`setTimeout`/`setInterval` becomes a pending timer record due at `now + delay`. A
`Fire` method runs the earliest pending timer. Event methods require that no timer
is due before the event.

**Chart fetch outcomes.** The chart's fetch ends in one of three outcomes: a throw, no
data, or a list of points. A `null` element of the response makes `data.map` throw.
So does a non-empty string response, which passes the `length > 0` test. In both
cases the catch calls `onCycleComplete` at the same instant, so they are the `Threw`
outcome.

**Imperative parts.** Where the source changes state step by step, the model is a
class with `modifies` clauses:
- the chart's `runSequence`;
- the price board;
- the socket effect;
- the news-rotation refs;
- the backend's connection list and news stack.

`generatePath` builds its path in two loops. It is a method with those loops, not a
class.

Each such method is proved against a specification function: `Trace`, `Scrape`,
`Deliveries`, `StaggerTimers`. The lemmas then prove the source's promises about
that function.

**Where the code and the description differ, the model follows the code:**
- A WebSocket frame that is not JSON, or whose `PLAY_AUDIO` command has no
  `payload` object, is not silently dropped. The handler throws, and a flag set
  before the throw stays set.
- `MarqueeHeadline` is never rendered and `cycleKey` is never read. Their values are
  modelled as computed, without an effect on the page.
- The news-rotation effect's guard against a second interval never fires, because
  the previous run's cleanup has already cleared the interval.

## Model

| member | source | states |
|---|---|---|
| ChartReveal.PercentChangeMeaning | frontend/src/App.jsx:40-43 | the change is finite iff the first point is non-zero; then last = first + first·pct/100, and for a positive first point pct > 0 iff the price rose |
| ChartReveal.PercentChange | frontend/src/App.jsx:42 | the change is a finite percentage exactly when the first point is non-zero |
| ChartReveal.InfoOf | frontend/src/App.jsx:40-43 | the label shows the last point's value, with a finite change exactly when the first point is non-zero |
| ChartReveal.Plan | frontend/src/App.jsx:36-81 | the steps after the fetch settles at t, as if the widget stayed mounted: none before t, and the last is `onCycleComplete` at t + CycleDelay |
| ChartReveal.Live | frontend/src/App.jsx:34-81 | the steps that find `isMounted` true: no more than were planned, each at a mounted time |
| ChartReveal.Trace | frontend/src/App.jsx:23-86 | a run starts with the four resets; every later event is at a mounted time |
| ChartReveal.CycleDelay | frontend/src/App.jsx:46-81 | the completion is due 0 ms after the fetch settles exactly when it throws, 10600 ms after data, and 1000 ms without data |
| ChartReveal.NextIdx | frontend/src/App.jsx:9 | `(i + 1) % 7` is the next ticker, wrapping from the last to the first |
| ChartReveal.AdvanceIsMod | frontend/src/App.jsx:616 | after n completed cycles the rotation index is `(i + n) mod 7` |
| ChartReveal.FinancialChart.constructor | frontend/src/App.jsx:13-21 | a fresh widget starts hidden with no price label, no series and an empty effect log |
| ChartReveal.FinancialChart.Emit | frontend/src/App.jsx:25-73 | one setter call appends its timed event to the log and applies it to the state |
| ChartReveal.FinancialChart.Guarded | frontend/src/App.jsx:43-73 | a step guarded by `isMounted` runs exactly when the widget is still mounted at its time |
| ChartReveal.FinancialChart.RevealIn | frontend/src/App.jsx:36-54 | series, price label, scales after 500 ms, line after 600 ms, label `'enter'` after 1600 ms, each only while mounted |
| ChartReveal.FinancialChart.HoldEnd | frontend/src/App.jsx:59-74 | after the 5 s hold: label `'exit'`, then line 0 after 600 ms, scales 0 after 800 ms, `onCycleComplete` after 1500 ms, each only while mounted |
| ChartReveal.FinancialChart.Reveal | frontend/src/App.jsx:36-74 | the success branch logs exactly the live part of the nine-step plan |
| ChartReveal.FinancialChart.RunSequence | frontend/src/App.jsx:23-85 | the log grows by exactly the four resets plus the mounted part of the plan for the fetch outcome, and the state is their replay |
| ChartReveal.FinancialChart.Complete | frontend/src/App.jsx:77-81 | a guarded `onCycleComplete()` at t logs the completion exactly when the widget is mounted at t, and is replayed into the state |
| ChartReveal.ReplayReset | frontend/src/App.jsx:25-28 | the resets zero the scales and line clip, clear the label and price info and keep the series |
| ChartReveal.LiveSingle | frontend/src/App.jsx:34 | a single planned step runs iff the widget is mounted at its time |
| ChartReveal.LiveAppend | frontend/src/App.jsx:43-81 | which steps survive the unmount does not depend on how the plan is split |
| ChartReveal.LiveSilentAfter | frontend/src/App.jsx:86 | once cleanup has run, no later setter or callback runs |
| ChartReveal.ReplaySnoc | frontend/src/App.jsx:25-73 | replaying one more event applies its effect to the replayed state |
| ChartReveal.ReplayAppend | frontend/src/App.jsx:25-73 | replaying two runs in a row is replaying their concatenation |
| ChartReveal.CompletionsAppend | frontend/src/App.jsx:73 | completions of a concatenation add up |
| ChartReveal.LiveIsPrefix | frontend/src/App.jsx:34-86 | for a time-ordered plan the steps that run are a prefix, all at mounted times, and every step after them is at an unmounted time |
| ChartReveal.PlanOrdered | frontend/src/App.jsx:36-81 | each plan's steps are in time order and none comes before the fetch settles |
| ChartReveal.TraceOrdered | frontend/src/App.jsx:23-85 | the whole run's events are in time order |
| ChartReveal.PlanCompletion | frontend/src/App.jsx:73-81 | every plan ends with `onCycleComplete` at fetch time + 10600 ms (data), + 1000 ms (no data) or + 0 (throw), and has no other completion |
| ChartReveal.CompletionsOfPrefix | frontend/src/App.jsx:73 | a prefix of such a plan holds one completion if it is the whole plan, none otherwise |
| ChartReveal.ResetCompletions | frontend/src/App.jsx:25-28 | the resets call no `onCycleComplete` |
| ChartReveal.LiveCompletions | frontend/src/App.jsx:73-81 | the live plan completes once iff the widget is mounted at the completion time, else never |
| ChartReveal.TraceCompletion | frontend/src/App.jsx:23-86 | `onCycleComplete` fires exactly once when mounted at start + fetch + cycle delay, and never otherwise |
| ChartReveal.TraceCompletionTime | frontend/src/App.jsx:46-81 | a completion happens at start + fetch delay + 10600, + 1000 or + 0 ms, by outcome |
| ChartReveal.TraceAfterCleanup | frontend/src/App.jsx:34 | if cleanup came before the fetch settled, only the resets ran |
| ChartReveal.TraceThrew | frontend/src/App.jsx:80-82 | when the fetch throws, the phase flags stay at their reset values |
| ChartReveal.LiveAll | frontend/src/App.jsx:34-74 | a plan whose last step is mounted runs in full |
| ChartReveal.ReplayPlan | frontend/src/App.jsx:36-73 | the full success plan leaves the series and label set, the label `'exit'`, the line and scales at 0 |
| ChartReveal.TraceRevealed | frontend/src/App.jsx:23-74 | a mounted successful run ends with the series, the (last, change) label in `'exit'`, and line and scales hidden |
| MarketFeed.FlashOf | frontend/src/App.jsx:404-408 | a row flashes iff the previous snapshot had its index and the price differs; `'up'` iff it rose, `'down'` iff it fell |
| MarketFeed.SetAt | frontend/src/App.jsx:411-415 | writing row i sets index i, keeps every other index, and a write past the end leaves holes |
| MarketFeed.PriorAt | frontend/src/App.jsx:404 | `prev[i]` is a row exactly when i is inside the previous snapshot, and then it is that row |
| MarketFeed.StaggerTimers | frontend/src/App.jsx:401-428 | one timer per row, in row order, due at now + its delay, carrying the row and the previous row at its index |
| MarketFeed.Shown | frontend/src/App.jsx:436-439 | the source is neither StockStory nor Associated Press Finance; FilterNews states what keeping it means |
| MarketFeed.FilterNews | frontend/src/App.jsx:436-439 | an item is kept iff it is in the list and its source is neither StockStory nor Associated Press Finance |
| MarketFeed.FilterNewsAppend | frontend/src/App.jsx:436-439 | filtering distributes over concatenation, so order is kept |
| MarketFeed.PriceBoard.constructor | frontend/src/App.jsx:385-386 | the board starts with no prices, flashes, snapshot, news or timers |
| MarketFeed.PriceBoard.Poll | frontend/src/App.jsx:388-441 | a non-array reply changes nothing; a first load replaces prices wholesale with no timer or flash; a later load keeps the prices and schedules StaggerTimers; the snapshot becomes the reply at once; news becomes the filtered list |
| MarketFeed.PriceBoard.Fire | frontend/src/App.jsx:403-426 | a row timer writes only its index and sets its flash with a clear 800 ms later; a clear timer deletes its index unconditionally |
| MarketFeed.PriceBoard.Dispose | frontend/src/App.jsx:448-451 | cleanup cancels all pending row timers and keeps the flash clears |
| MarketFeed.Unstaggered | frontend/src/App.jsx:450 | exactly the flash-clear timers survive cleanup |
| MarketFeed.UnstaggeredAppend | frontend/src/App.jsx:450 | cancelling distributes over concatenation |
| MarketFeed.ApplyInOrder | frontend/src/App.jsx:401-415 | the row timers firing in a given order; its meaning is stated by ApplyInOrderMeaning |
| MarketFeed.ApplyInOrderMeaning | frontend/src/App.jsx:401-415 | in any firing order, each applied index holds its new row, and every index not applied is unchanged or a hole |
| MarketFeed.StaggerConverges | frontend/src/App.jsx:401-415 | once every row's timer has fired, in any order, the prices are the new snapshot |
| Marquee.ItemDist | frontend/src/App.jsx:463-464 | overflow is ≥ 0, zero iff the headline fits in 280 px, else width − 280 |
| Marquee.ItemTime | frontend/src/App.jsx:467 | a headline's time is its overflow at 18 px/s plus 3 s of pauses |
| Marquee.Times | frontend/src/App.jsx:460-468 | one time per headline for the first five headlines |
| Marquee.MaxOf | frontend/src/App.jsx:470 | the maximum is one of the values and ≥ all of them |
| Marquee.MaxDuration | frontend/src/App.jsx:454-474 | without news the duration is unchanged; with news it is at least the 3 s of pauses |
| Marquee.MaxDurationBound | frontend/src/App.jsx:454-474 | with news, `maxDuration` is ≥ 3 and ≥ every one of the first five times, and equals one of them, so the fallback 8 is never used |
| Marquee.MaxDurationNoNews | frontend/src/App.jsx:455 | without news `maxDuration` keeps its value |
| Marquee.CycleTicks | frontend/src/App.jsx:478-483 | `cycleKey` has grown by the number of whole (maxDuration + 4)·1000 ms periods elapsed, and not at all when maxDuration ≤ 0 |
| Marquee.CyclePeriod | frontend/src/App.jsx:481 | for a positive duration the master period exceeds the 4 s hold |
| Marquee.WholePeriods | frontend/src/App.jsx:481 | after `elapsed` ms an interval of period p has completed floor(elapsed / p) periods and is inside the next |
| Marquee.HeadlineDist | frontend/src/App.jsx:224-225 | a headline's measured overflow is ≥ 0, positive iff the text is wider than its box, and then their difference |
| Marquee.PStart | frontend/src/App.jsx:238 | the scroll starts at a positive percentage |
| Marquee.PEnd | frontend/src/App.jsx:235-239 | for a non-negative overflow the scroll ends no earlier than it starts |
| Marquee.KeyframesOrdered | frontend/src/App.jsx:234-239 | 0 < pStart ≤ pEnd, and pEnd ≤ 100 − pStart when the shared duration covers the headline's own time |
| EventChannel.IsCommand | frontend/src/App.jsx:501-505 | a parsed message whose `command` is the given one; Dispatch states its use |
| EventChannel.Dispatch | frontend/src/App.jsx:497-507 | `START_AI_MODE` sets the AI flag; `PLAY_AUDIO` sets the voice flag and creates audio for `payload.url`; it throws when there is no payload object; a non-JSON or `null` frame throws before any change |
| EventChannel.OtherCommandsInert | frontend/src/App.jsx:501-507 | any other command, `AI_RESPONSE_TEXT` included, changes nothing and throws nothing |
| EventChannel.DispatchOnlySets | frontend/src/App.jsx:501-506 | a message never clears either flag |
| EventChannel.Channel.constructor | frontend/src/App.jsx:485-556 | mounting opens one socket, with both flags down and nothing pending |
| EventChannel.Channel.Connect | frontend/src/App.jsx:489-490 | `connect` opens one more socket and changes nothing else |
| EventChannel.Channel.OnOpen | frontend/src/App.jsx:492-494 | opening changes no state but the socket's |
| EventChannel.Channel.OnMessage | frontend/src/App.jsx:496-541 | after unmount a message changes nothing; otherwise the flags, audios and error count change as Dispatch says |
| EventChannel.Channel.OnFrame | frontend/src/App.jsx:521-529 | a frame of playing audio copies the 1024 samples; a frame after the end empties the buffer and stops |
| EventChannel.Channel.OnAudioEnded | frontend/src/App.jsx:531-537 | audio end clears both flags and schedules emptying the buffer 800 ms later |
| EventChannel.Channel.OnError | frontend/src/App.jsx:550-553 | an error only closes the socket |
| EventChannel.Channel.OnClose | frontend/src/App.jsx:543-548 | each close while mounted schedules exactly one reconnect 3000 ms later; after unmount none |
| EventChannel.Channel.Fire | frontend/src/App.jsx:536-546 | the buffer-clear timer empties the samples; a reconnect opens a socket only while mounted |
| EventChannel.Channel.Dispose | frontend/src/App.jsx:558-561 | cleanup marks the effect unmounted and closes a live socket |
| EventChannel.VoiceRoundScenario | frontend/src/App.jsx:501-537 | AI mode, play, end: 800 ms later both flags are down and the buffer is empty |
| EventChannel.ReconnectScenario | frontend/src/App.jsx:543-561 | a close while mounted reconnects once; after cleanup a pending reconnect opens nothing |
| Waveform.HasSignal | frontend/src/App.jsx:282 | `hasSignal`; its meaning is stated by HasSignalMeaning |
| Waveform.EveryMeaning | frontend/src/App.jsx:282 | `every` holds iff each byte lies in [126, 130] |
| Waveform.HasSignalMeaning | frontend/src/App.jsx:282 | there is a signal iff the buffer is non-empty and some byte lies outside [126, 130] |
| Waveform.GeneratePath | frontend/src/App.jsx:280-306 | `M 0 96` then one `L` per sample at x = i·2048/n, y = 96 + (v/128 − 1)·85; without a signal, exactly 121 idle points at x = i·2048/120 |
| Waveform.SampleX | frontend/src/App.jsx:286-288 | each sample's x lies in [0, 2048) |
| Waveform.SampleY | frontend/src/App.jsx:289-290 | each sample's y lies in [11, 96 + 85·127/128] |
| Waveform.IdleX | frontend/src/App.jsx:296-299 | each idle point's x lies in [0, 2048] |
| Waveform.SampleXBounds | frontend/src/App.jsx:286-288 | sample x positions start at ≥ 0, strictly increase and stay < 2048 |
| Waveform.SampleYBounds | frontend/src/App.jsx:289-290 | sample heights lie in [11, 96 + 85·127/128], and are 96 iff the byte is 128 |
| Waveform.IdleXBounds | frontend/src/App.jsx:296-299 | idle points run from 0 to exactly 2048 |
| Dashboard.Sessions | frontend/src/App.jsx:790-796 | a schedule exists exactly for the five cities; each has at least one non-empty session, in order, with a gap between consecutive sessions |
| Dashboard.IsActive | frontend/src/App.jsx:798-803 | `isActive`: a weekday and a session containing the minute; its meaning is stated by IsActiveMeaning |
| Dashboard.AnyOpenMeaning | frontend/src/App.jsx:803 | `some` holds iff some session [open, close) contains the minute |
| Dashboard.IsActiveMeaning | frontend/src/App.jsx:798-803 | a clock is active iff it is Monday–Friday, the city has a schedule and the minute lies in one of its half-open sessions |
| Dashboard.LunchBreaks | frontend/src/App.jsx:794-795 | TOKIO is closed 11:30–12:29 and BEIJING 11:30–12:59 |
| Dashboard.ClosedAtClose | frontend/src/App.jsx:790-803 | every exchange is closed at its closing minute |
| Dashboard.OpenAtOpen | frontend/src/App.jsx:790-803 | every exchange is open at its opening minute on a weekday |
| Dashboard.PositiveCount | frontend/src/App.jsx:566 | the rising rows are at most all rows |
| Dashboard.Ratio | frontend/src/App.jsx:565-568 | the share of rising rows lies in [0, 1] |
| Dashboard.Round | frontend/src/App.jsx:569-571 | `Math.round` gives the integer n with n − ½ ≤ x < n + ½, so halves round up |
| Dashboard.SentimentColor | frontend/src/App.jsx:569-572 | each channel lies between its red (248, 113, 113) and green (74, 222, 128) ends |
| Dashboard.RatioBounds | frontend/src/App.jsx:565-568 | the ratio lies in [0, 1]; it is 0 iff nothing rises and 1 iff the list is non-empty and every row rises |
| Dashboard.RoundBounds | frontend/src/App.jsx:569-571 | `Math.round` keeps a value between two integers inside them, and fixes the integers themselves |
| Dashboard.SentimentColorBounds | frontend/src/App.jsx:565-572 | each channel stays between red (248, 113, 113) and green (74, 222, 128); exactly red when nothing rises, exactly green when every row does |
| Dashboard.NewsRotation.constructor | frontend/src/App.jsx:363-364 | the counter starts at 0 and no interval runs |
| Dashboard.NewsRotation.OnNewsChanged | frontend/src/App.jsx:367-383 | after a news change exactly one interval runs, capturing the new length, if the list is non-empty, and none otherwise |
| Dashboard.NewsRotation.Tick | frontend/src/App.jsx:373-377 | a tick increments the counter and shows index counter mod length |
| Dashboard.RotationScenario | frontend/src/App.jsx:373-377 | five headlines are shown as 1, 2, 3, 4, 0, 1 on the first six ticks |
| PyStr.Lower | backend/main.py:163 | `lower()` maps each character and keeps the length |
| PyStr.Upper | backend/main.py:315 | `upper()` maps each character and keeps the length |
| PyStr.UpperIdempotent | backend/main.py:315 | upper-casing twice is upper-casing once |
| PyStr.IsSpace | backend/main.py:163 | Python's `isspace` set of code points, which Strip removes |
| PyStr.FirstNonSpace | backend/main.py:163 | the first non-space index, with only spaces before it |
| PyStr.EndNonSpace | backend/main.py:163 | the end of the last non-space run, with only spaces after it |
| PyStr.Strip | backend/main.py:163 | `strip()` is the slice from the first non-space character, with only spaces after it and no space at either end |
| PyStr.StripTrimmed | backend/main.py:163 | a string without surrounding spaces strips to itself |
| PyStr.RemoveAll | backend/main.py:163 | `replace(p, '')` never lengthens the string |
| PyStr.RemoveAllAbsent | backend/main.py:151 | a string in which the pattern never starts is unchanged |
| PyStr.RemoveAllChar | backend/main.py:151 | after removing a single character none of it is left |
| PyStr.BeforeFirst | backend/main.py:165 | `split(c)[0]` is the prefix before the first `c`, and holds no `c` |
| PyStr.BeforeFirstAbsent | backend/main.py:165 | without `c` the whole string is returned |
| PyStr.DigitChar | backend/main.py:172 | the digit character of a value below 10 has that value |
| PyStr.Digits | backend/main.py:165 | dropping underscores leaves only digits |
| PyStr.Decimal | backend/main.py:165 | `str(n)` is non-empty, all digits, without a leading zero |
| PyStr.DecimalValue | backend/main.py:165 | the digits of `str(n)` have value n |
| PyStr.ParseInt | backend/main.py:165-168 | `int()` on a string: optional surrounding whitespace and sign, digit groups with single underscores; its round trip is ParseDecimal |
| PyStr.ParseDecimal | backend/main.py:165 | `int(str(n)) == n` |
| RelativeTime.Clean | backend/main.py:163 | the cleaned age is never longer than the input |
| RelativeTime.Offset | backend/main.py:164-171 | an age with neither marker has offset 0; a failure comes only from `int` in a marker branch |
| RelativeTime.Shifted | backend/main.py:164-174 | the instant formatted is always a valid `datetime` |
| RelativeTime.Pad2 | backend/main.py:172 | each clock field is two digits |
| RelativeTime.Clock | backend/main.py:172 | `%H:%M:%S` is eight characters with colons at 2 and 5 |
| RelativeTime.Pad2Value | backend/main.py:172 | a two-digit field reads back as its value |
| RelativeTime.ClockRoundTrip | backend/main.py:172 | the printed clock reads back as the instant's second of the day |
| RelativeTime.ParseRelativeTime | backend/main.py:158-174 | the result is always an `HH:MM:SS` string |
| RelativeTime.RemoveAllKeep | backend/main.py:163 | text without the pattern's first letter passes `replace` unchanged |
| RelativeTime.BeforeFirstAfter | backend/main.py:165-168 | splitting `a + c + b` at c gives a when a has no c |
| RelativeTime.LowerUnchanged | backend/main.py:163 | text without capitals is unchanged by `lower()` |
| RelativeTime.RemoveAllSelf | backend/main.py:163 | removing a pattern from itself leaves nothing |
| RelativeTime.RemoveTail | backend/main.py:163 | removing a trailing pattern leaves the text before it |
| RelativeTime.RemoveAgo | backend/main.py:163 | `"<x> ago"` loses its `ago` |
| RelativeTime.StripTrailingSpace | backend/main.py:163 | one trailing space is stripped |
| RelativeTime.CleanOf | backend/main.py:163 | `"<x> ago"` cleans to x |
| RelativeTime.CleanAgo | backend/main.py:163 | `"<n><unit> ago"` cleans to `"<n><unit>"` |
| RelativeTime.OffsetOfClean | backend/main.py:164-169 | a cleaned `"<n>m"` is n minutes and `"<n>h"` is n hours |
| RelativeTime.DecimalNoMarker | backend/main.py:164-167 | a number's digits contain neither marker |
| RelativeTime.ShiftedBy | backend/main.py:166-172 | a non-negative offset moves the time back unless that leaves the `datetime` range |
| RelativeTime.MinutesOffset | backend/main.py:164-166 | `"<n>m ago"` is an offset of n minutes |
| RelativeTime.HoursOffset | backend/main.py:167-169 | `"<n>h ago"` is an offset of n hours |
| RelativeTime.MinutesAgo | backend/main.py:158-174 | `"<n>m ago"` gives the time n minutes before now, or now when out of range |
| RelativeTime.HoursAgo | backend/main.py:158-174 | `"<n>h ago"` gives the time n hours before now, or now when out of range |
| RelativeTime.MinutesRejected | backend/main.py:164-174 | an `m` whose prefix `int` rejects gives now, whatever follows |
| RelativeTime.CleanMixed | backend/main.py:163 | `"1h 30m ago"` cleans to `"1h 30m"` |
| RelativeTime.HoursPrefixRejected | backend/main.py:165 | `int("1h 30")` raises |
| RelativeTime.MinuteMarkerFirst | backend/main.py:164-174 | the `m` test comes before the `h` test: `"1h 30m ago"` gives now |
| RelativeTime.NoMarker | backend/main.py:170-171 | an age with neither marker gives now |
| NewsCache.Headline | backend/main.py:315 | a cached headline is upper-case and no longer than its title |
| NewsCache.SourceOf | backend/main.py:327-333 | the publishing div's first string, upper-cased, or `"YF"`; MissingPublishingDefaults states the default |
| NewsCache.AgeOf | backend/main.py:327-333 | the publishing div's last string when it has two, or `"0m ago"` |
| NewsCache.FirstWith | backend/main.py:319 | `next(...)` finds the first entry with the headline, or reports that there is none |
| NewsCache.FirstWithFinds | backend/main.py:319 | any entry with the headline is at or after the one found |
| NewsCache.TickerOf | backend/main.py:335-336 | a new entry's ticker holds no `^`, and is `"MKT"` without a symbol |
| NewsCache.NewEntry | backend/main.py:339-345 | a new entry keeps the headline and date given, its time is `HH:MM:SS` and its ticker holds no `^` |
| NewsCache.EntryFor | backend/main.py:312-345 | an article contributes an entry iff it has an `h3`, under its stripped, upper-cased headline |
| NewsCache.Entries | backend/main.py:311-348 | the new list has at most one entry per article |
| NewsCache.Considered | backend/main.py:307 | at most the first eight articles are looked at |
| NewsCache.Scrape | backend/main.py:295-358 | a failed request or parse leaves the stack as it was; a page gives at most eight entries |
| NewsCache.NewsCache.constructor | backend/main.py:66 | the stack starts empty |
| NewsCache.NewsCache.GetLatestScraping | backend/main.py:294-358 | the stack becomes the merged entries of the first eight articles, in page order, and is returned; a failed request or parse leaves it unchanged and returns it |
| NewsCache.MarketSummary | backend/main.py:113-116 | the headlines of the first min(5, n) cached entries, in order |
| NewsCache.EntriesContain | backend/main.py:311-345 | every article with an `h3` is represented in the new stack |
| NewsCache.EntriesFrom | backend/main.py:311-345 | every new entry comes from one of the articles |
| NewsCache.ReusedEntryFrozen | backend/main.py:319-324 | an entry whose headline was cached is the first cached entry with it, unchanged, so its time is frozen |
| NewsCache.FreshEntryBuilt | backend/main.py:325-345 | an entry whose headline was not cached is built from its article at this scrape's time |
| NewsCache.MissingPublishingDefaults | backend/main.py:332-333 | without a publishing div the source is `"YF"` and the time is the scrape's |
| NewsCache.ScrapeBounded | backend/main.py:307 | the stack never holds more than eight entries after a scrape |
| NewsCache.EntriesAgree | backend/main.py:311-345 | two caches that give each article the same entry give the same list |
| NewsCache.RescrapeStable | backend/main.py:319-324 | scraping the same page again at any later time leaves a stack with distinct headlines unchanged, times included |
| Tickers.StripCaret | backend/main.py:151-156 | the shown symbol holds no `^` |
| Tickers.StripCaretFixed | backend/main.py:151 | a symbol without `^` is shown as it is |
| Tickers.StripCaretIdempotent | backend/main.py:151 | normalising twice is normalising once |
| Tickers.StripCaretIndex | backend/main.py:151 | an index symbol loses its leading caret |
| Tickers.FetchTickerData | backend/main.py:137-156 | the symbol loses its `^` on every path; a failure gives price 0 and change 0; fewer than two closes give change 0; otherwise the price is the last close |
| Tickers.ChangeMeaning | backend/main.py:145-148 | with a positive previous close the change is finite, rises iff the price rose, is 0 iff it did not move, and brings the previous close to the current one |
| Tickers.GetPrices | backend/main.py:281-292 | one row per board ticker, in board order |
| Tickers.BoardSymbols | backend/main.py:282-292 | the five index tickers are shown without their caret |
| Tickers.IndexSymbol | backend/main.py:151 | `"^" + name` is shown as name |
| Tickers.AssetSymbol | backend/main.py:99 | any casing of `btc` becomes `BTC-USD`, and any other ticker is unchanged |
| Tickers.AssetSymbolIdempotent | backend/main.py:99 | mapping twice is mapping once |
| Tickers.BitcoinAliases | backend/main.py:99 | `btc`, `Btc` and `BTC` all become `BTC-USD` |
| Tickers.Get | backend/main.py:105-106 | `data.get(key, default)`: the value when the key is present, else the default |
| Tickers.GetAssetData | backend/main.py:94-111 | the lookup fails iff yfinance raises; the symbol is mapped; the price is `currentPrice`, else `regularMarketPrice`, else N/A |
| Connections.MakeEnvelope | backend/main.py:38 | the envelope carries the command and the payload, `{}` for a missing payload |
| Connections.IndexOf | backend/main.py:34 | the index of the first occurrence, or the length when absent |
| Connections.RemoveFirst | backend/main.py:34 | `remove` drops exactly one occurrence: one shorter, the same multiset minus x |
| Connections.RemoveFirstOrder | backend/main.py:34 | the sockets before the first x keep their places and those after it move up by one |
| Connections.ConnectThenDisconnect | backend/main.py:28-34 | connecting a new socket and disconnecting it restores the list |
| Connections.DisconnectRemovesEarliest | backend/main.py:34 | a socket connected twice loses its earlier entry |
| Connections.Deliveries | backend/main.py:39-40 | a broadcast sends to no more sockets than are connected |
| Connections.FirstFailing | backend/main.py:39-40 | the socket that ends a broadcast is a connected socket whose send fails |
| Connections.DeliveriesMeaning | backend/main.py:36-40 | every send carries the same envelope to the next socket in list order; all sockets are served iff none fails; otherwise the failing one is next |
| Connections.ConnectionManager.constructor | backend/main.py:24-26 | no connections at start |
| Connections.ConnectionManager.Connect | backend/main.py:28-30 | the socket is appended at the end |
| Connections.ConnectionManager.Disconnect | backend/main.py:33-34 | the first occurrence is removed; an absent socket raises and leaves the list unchanged |
| Connections.ConnectionManager.BroadcastCommand | backend/main.py:36-40 | the sends are exactly Deliveries of the envelope in list order, stopping at the first failing socket, which is reported |

## Left out

- Rendering is not modelled: JSX markup, CSS keyframes, Tailwind classes, ApexCharts options, framer-motion springs and opacity transitions.
- Browser I/O is not modelled: `fetch`, the WebSocket transport, `Audio`, `AudioContext`, `AnalyserNode` and `requestAnimationFrame`. Their results and callbacks are inputs or events of the model.
- The 30 s price-poll interval, the 1 s `masterTime` pulse and the 6 s news-rotation interval are not scheduled by the model. Each run or tick is an explicit call.
- `Math.random()` is a delay input below 3000 ms, in whole milliseconds.
- Canvas `measureText`, `scrollWidth` and `offsetWidth` are `real` inputs.
- The idle waveform's `Math.sin`/`Math.cos` height is floating point and not modelled. An idle point carries only its index and x position.
- `toFixed`, `Intl.NumberFormat` and the backend's `:.2f` formatting are not modelled. Neither is the `toLocaleString` time-zone conversion: day, hours and minutes are inputs.
- `parseFloat` is not modelled: prices and changes are exact reals, and `NaN` is not represented.
- Floating-point rounding of the percentages and keyframes is not modelled: arithmetic is exact.
- Chart points that are numbers, strings or arrays are not represented. Neither are points without a numeric `value`. The code reads an `undefined` price from them and computes a `NaN` change.
- Backend services are not modelled: yfinance, `requests` and BeautifulSoup, the Twilio download, Gemini, edge_tts, the file system, FastAPI routing and CORS, and uvicorn. A scraped article is a record of optional tag texts; a lookup is its result or a throw.
- `websocket.accept()` failing inside `connect` is not modelled.
- The `receive_whatsapp` flow is not modelled. It is a sequence of broadcasts around foreign calls; its broadcasts are `BroadcastCommand` calls.
- `asyncio.gather` runs the fetches in parallel. The model computes the rows sequentially, which gives the same ordered result.
- `lower()` and `upper()` map ASCII letters only: Unicode case mapping is left out.
- `int()` accepts ASCII digits only: Unicode digits are left out.
- `datetime.now()` is a whole number of seconds: microseconds never reach `%H:%M:%S`.
- One scrape uses one `now` and one date for all its entries, where the code reads the clock per entry.
- RelativeTime.Shifted: a `timedelta` too large to construct raises `OverflowError` just as an out-of-range result does. Both are folded into the out-of-range case, which gives now.
- Tickers.FetchTickerData: `NaN` closes are not represented. The code prints them as `"nan"` and `"+nan"`.
- Tickers.FetchTickerData: an `info` market price that is not a number makes the `:.2f` formatting raise, and the code then falls back to `"0.00"`. The model takes that price as a number.
- Connections.ConnectionManager.BroadcastCommand: the model assumes no `connect` or `disconnect` runs while the broadcast awaits `send_json`. Such a call changes the list under Python's iterator. After a removal the loop skips the socket that follows the removed one. A socket appended mid-loop is also served.
- Tickers.GetAssetData: `beta` and `regularMarketChangePercent` are carried as given; fields that are present but not numeric are not modelled.
- NewsCache.RescrapeStable is stated for a stack with distinct headlines. With duplicate headlines a second scrape may replace a later duplicate by the first one.
- Per-article exceptions inside the scrape loop are not modelled: with tag texts as inputs, nothing in the loop body can raise.
