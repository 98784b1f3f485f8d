# Invezo market data and list state, in Dafny

This project models the core of Invezo, a React stock-tracking app. The
model has two parts.

**The market-data layer of `src/lib/api.ts`** is modelled as follows:
- **Cache and queue.** A one-minute cache sits in front of a first-in first-out request queue. The queue runs one Alpha Vantage call at a time and pauses 12 seconds after each.
- **Validation.** Each call's answer goes through the checks `makeRequest` applies, in their order.
- **Query and chart data.** The time-range table, the query URL, the cache keys and the processing of a price series into newest-first labels and closes are modelled. So are the ten projected points for the `1D` range and the normalised quote.
- **Entry points.** `getStockQuote` and `getStockData` never fail: every failure gives the zero quote or the empty chart data.

**The list state of four components** is modelled as follows:
- **Watchlists** (`Watchlist.tsx`): create, add a symbol, remove an item, delete, rename, load with a per-watchlist fallback, and refresh prices.
- **Notifications** (`Notifications.tsx`): mark read, mark all read, clear, delete, and the unread count.
- **Trade history** (`TradingHistory.tsx`): the type and symbol filter.
- **Chat** (`AIChat.tsx`): the keyword reply rule and the conversation update.

Each handler awaits a remote call. The model takes that call's result as an
input and changes the list only when it reports no error.

**Where state lives.** The state that the source changes in place is kept in classes:
- `MarketData.MarketDataClient`: the cache map, the queue, the `isProcessingQueue` flag, a logical clock and a log of the calls made;
- `Watchlists.WatchlistPanel`, `Notifications.NotificationsPanel` and `AIChat.ChatSession`: each component's state.

Each method is specified by a pure function, and the properties are proved
as lemmas about that function. The drain loop of `processQueue` is a `while`
loop (`RunToIdle`) proved against the recursive `DrainSpec`.

**Inputs the model takes as parameters.** Parts of the outside world are
passed in as parameters:
- **Network:** a function from the URL and the start time to the response (status, parsed body, latency).
- **Time:** a logical clock in milliseconds.
- **`Math.random()`:** a function from the point's index to the draw.
- **Labels:** `formatTimeLabel` is a symbolic label `TimeLabel(time, range)`.
- **Database results:** an error or a returned row per call.

**Modules, one per file.** Two of them are shared utilities:
- `wrappers.dfy`: Option and Result.
- `filters.dfy`: `Array.prototype.filter`/`map`.

The rest model the source:

| file | module | models |
|---|---|---|
| `text.dfy` | `Text` | `trim`, `toLowerCase`/`toUpperCase`, `includes` |
| `numbers.dfy` | `Numbers` | `String(n)`, `parseFloat`, `parseInt` |
| `sequences.dfy` | `Sequences` | the default `sort`, `slice(-n)`, `reverse` |
| `json_values.dfy` | `JsonValues` | parsed JSON, truthiness, `Object.keys` |
| `time_ranges.dfy` | `TimeRanges` | the range table, URLs and cache keys |
| `series.dfy` | `Series` | `processTimeSeriesData` |
| `projection.dfy` | `Projections` | `generatePredictions` |
| `quotes.dfy` | `Quotes` | quote normalisation |
| `stock_data.dfy` | `StockData` | chart data assembly |
| `market_data.dfy` | `MarketData` | cache, queue, entry points |
| `watchlists.dfy` | `Watchlists` | the watchlist component |
| `notifications.dfy` | `Notifications` | the notifications component |
| `trading_history.dfy` | `TradingHistory` | the trade filter |
| `ai_chat.dfy` | `AIChat` | the chat component |

**Behaviour worth noting:**
- **Series order.** The series comes out newest first. The timestamps are sorted ascending, the last `limit` are kept and the list is reversed once.
  - Consequence: `generatePredictions` anchors on the last element of that list, the close of the oldest bar kept (`StockData.PredictionAnchor`).
- **Partial quotes.** A quote's fields default one by one, so a response carrying only a price gives a quote that is neither complete nor the zero quote (`Quotes.PartialQuote`).
- **`1D` labels and `predicted`.** For `1D` the labels run ten past the prices. `predicted` is one `null` per price, plus ten projections only when there are at least two prices (`StockData.AssembleShape`).
- **Unknown ranges.** An unknown range is caught inside `getStockData` and gives the empty data without a request.

## Model

| member | source | states |
|---|---|---|
| Text.Trim | src/components/Watchlist.tsx:160-176 | `trim()` is the slice of the input between its leading and trailing white space, with no white space at either end; white space is the full set JavaScript strips |
| Text.NoBreakSpaceIsBlank | src/components/Watchlist.tsx:160 | a name of one no-break space, or of an ideographic space, tab and space, is blank |
| Text.BlankIffAllWhitespace | src/components/Watchlist.tsx:160 | `!s.trim()` holds exactly when every character is white space |
| Text.TrimmedNotBlank | src/components/Watchlist.tsx:176 | the trimmed form of a non-blank name is non-empty and not blank |
| Text.ToLower | src/components/TradingHistory.tsx:44 | lower-casing keeps the length and maps each character |
| Text.ToLowerIgnoresCase | src/components/TradingHistory.tsx:47 | upper-casing first does not change the lower-cased text |
| Text.ToUpperIdempotent | src/components/Watchlist.tsx:202 | upper-casing an upper-cased symbol changes nothing |
| Text.ContainsIffOccurs | src/components/TradingHistory.tsx:47 | `includes` holds exactly when the text occurs at some position |
| Text.ContainsEmpty | src/components/TradingHistory.tsx:47 | every string includes the empty search text |
| Numbers.DecimalRoundTrip | src/lib/api.ts:151 | the digits of `String(n)` read back as `n` |
| Numbers.ParseIntDecimal | src/lib/api.ts:104 | `parseInt(String(n))` is `n` |
| Numbers.ParseIntHex | src/lib/api.ts:104 | without a radix, `parseInt` reads a `0x` prefix as base 16: `"0x1A"` is 26 |
| Numbers.ParseFloatDecimal | src/lib/api.ts:101-106 | `parseFloat(String(n))` is `n` |
| Numbers.ParseFloatNegated | src/lib/api.ts:102 | a leading minus sign negates the number read |
| Numbers.ParseFloatFraction | src/lib/api.ts:101 | `parseFloat` of a numeral with a fraction (`"189.8400"`) is its whole part plus the fraction digits over the matching power of ten |
| Numbers.ParseFloatFractionNegated | src/lib/api.ts:102 | the same with a leading minus sign (`"-1.2300"`) gives the negated value |
| Numbers.ParseFloatRejects | src/lib/api.ts:244-245 | text not starting with a digit, point, sign or white space (the full JavaScript set) is `NaN` |
| Sequences.SortAscending | src/lib/api.ts:238-239 | the sorted keys are in ascending string order |
| Sequences.SortPermutes | src/lib/api.ts:238-239 | the sort rearranges the keys and nothing more |
| Sequences.AscendingUnique | src/lib/api.ts:239 | any ascending arrangement of the keys is the one `Sort` gives |
| Sequences.SliceFromEnd | src/lib/api.ts:240 | `slice(-n)` keeps the last `min(n, length)` elements, all of them for `n == 0` |
| Sequences.ReverseAt | src/lib/api.ts:241 | position `k` of the reversed list holds element `length-1-k` |
| Sequences.LatestFirst | src/lib/api.ts:238-241 | the kept keys are the `min(limit, #keys)` greatest, distinct, greatest first, and every dropped key sorts below them |
| JsonValues.Lookup | src/lib/api.ts:52 | a member name is found exactly when some member carries it |
| JsonValues.LookupAt | src/lib/api.ts:52 | the parsed object keeps the last member with a given name |
| JsonValues.KeysPresent | src/lib/api.ts:61 | `Object.keys` lists each name once and every listed name can be read |
| JsonValues.KeysOfObject | src/lib/api.ts:95 | an object has no keys exactly when it has no members |
| TimeRanges.ParseTimeRange | src/lib/api.ts:7 | a recognised string is the name of the range it gives |
| TimeRanges.ParseRangeName | src/lib/api.ts:7 | every range is recognised by its own name |
| TimeRanges.GetTimeRangeConfig | src/lib/api.ts:178-216 | a configuration exists exactly for the six names; the limit is positive; an interval exists exactly for the intraday function |
| TimeRanges.TimeRangeTable | src/lib/api.ts:178-216 | the six rows (function, interval, limit, data key) and `Invalid time range` for anything else |
| TimeRanges.BuildApiUrl | src/lib/api.ts:218-219 | the URL is built on the provider's base URL |
| TimeRanges.BuildApiUrlParams | src/lib/api.ts:218-227 | the parameters are `function`, `symbol`, the interval if any, then `apikey`, each carrying its value |
| TimeRanges.CacheKeysDisjoint | src/lib/api.ts:90-135 | quote cache keys never equal series cache keys |
| TimeRanges.QuoteCacheKeyInjective | src/lib/api.ts:90 | `quote_${symbol}` determines the symbol |
| TimeRanges.DataCacheKeyInjective | src/lib/api.ts:135 | `data_${symbol}_${timeRange}` determines symbol and range for valid ranges |
| Series.ClosePrices | src/lib/api.ts:243-246 | the prices exist exactly when no kept bar throws, one per time, each the close of its bar |
| Series.ProcessedSeriesSpec | src/lib/api.ts:233-251 | `min(limit, #keys)` distinct newest times, newest first; labels and prices index-aligned; failure exactly on a `null` bar |
| Series.UnparsableCloseIsZero | src/lib/api.ts:244-245 | a close that is `NaN` reads as 0 |
| Projections.PredictionsShape | src/lib/api.ts:287-299 | no projection below two prices; otherwise ten, anchored on the final price, steps 1..10, trend +0.001 exactly when the final price rose |
| Projections.NeutralProjectionFollowsTrend | src/lib/api.ts:294-297 | with neutral noise the projected value is above the anchor exactly on an up trend, and moves away with each step |
| Quotes.NormalizeQuote | src/lib/api.ts:93-107 | no usable `Global Quote` gives the zero quote; the change percent is always truthy |
| Quotes.NumeralParses | src/lib/api.ts:101-106 | a decimal numeral as the provider writes it, signed or not, parses to its value |
| Quotes.QuoteFieldsIndependent | src/lib/api.ts:100-107 | each field depends on its own member only: quotes agreeing on a member agree on its field, whatever else they hold |
| Quotes.QuoteFieldDefaults | src/lib/api.ts:100-107 | an absent, `null` or unparsable member reads 0; a falsy change percent reads `0%`, a truthy one is passed on |
| Quotes.QuoteRoundTrip | src/lib/api.ts:93-107 | normalising a complete response with decimal prices and change gives back every value it carries |
| Quotes.PartialQuote | src/lib/api.ts:100-107 | a response with only a price gives that price and zeros elsewhere, not the zero quote |
| StockData.RangeConfig | src/lib/api.ts:133 | the configuration used is the table's row for the range |
| StockData.ExtractTimeSeriesData | src/lib/api.ts:229-231 | a truthy result is the member under the data key; otherwise `null` |
| StockData.FutureLabels | src/lib/api.ts:151 | ten future labels |
| StockData.Nulls | src/lib/api.ts:154 | one `null` per historical price |
| StockData.AssembleShape | src/lib/api.ts:145-155 | `1D`: ten extra labels ending `+5min`..`+50min`, `predicted` nulls then 0 or 10 projections; other ranges: labels match prices, nothing predicted |
| StockData.FutureLabelEnds | src/lib/api.ts:151 | the labels run from `+5min` to `+50min` |
| StockData.PredictionAnchor | src/lib/api.ts:145-146 | `1D` projections anchor on the last price, the close of the oldest kept bar; trend up exactly when it exceeds the next price |
| StockData.EmptyWhenNoSeries | src/lib/api.ts:138-143 | a missing, falsy or empty series, or a `null` bar, gives the empty data |
| MarketData.Validate | src/lib/api.ts:48-63 | a response succeeds exactly when it has an ok status, a non-null truthy body with keys, and no truthy `Error Message` or `Note`; it then yields that body |
| MarketData.ValidateOrder | src/lib/api.ts:49-63 | the first failing check names the error: HTTP status, a body that is not JSON, a `null` body, `Error Message` with its text, `Note`, then a falsy or keyless body |
| MarketData.DrainSpec | src/lib/api.ts:17-35 | every queued task runs; the clock advances at least 12 s per task |
| MarketData.DrainOrder | src/lib/api.ts:21-31 | tasks run once each in queue order; the first starts at once; each later one starts 12 s or more after the previous finished |
| MarketData.DrainSpacing | src/lib/api.ts:29-30 | starts `j - i` tasks apart are at least `12 s * (j - i)` apart |
| MarketData.DrainClock | src/lib/api.ts:21-34 | the drain goes idle 12 s after its last task's body was read |
| MarketData.DrainKeepsUnwritten | src/lib/api.ts:66 | a key written by no successful task keeps its entry or stays absent |
| MarketData.DrainLastWrite | src/lib/api.ts:66 | a key holds the data of the last successful task for it, stamped when its body was read |
| MarketData.RequestOutcomeSpec | src/lib/api.ts:40-74 | a fresh entry is served as is; otherwise the request's own task, queued last, decides the result |
| MarketData.RepeatIsServedFromCache | src/lib/api.ts:39-66 | after a miss that succeeds, the same request made within 48 s of the queue going idle is a fresh hit, served the same data with nothing queued |
| MarketData.RunIsValidated | src/lib/api.ts:46-67 | each task's outcome is the validation of its own URL's response at its start time |
| MarketData.MarketDataClient.constructor | src/lib/api.ts:10-15 | empty cache, empty queue, flag down |
| MarketData.MarketDataClient.Tick | src/lib/api.ts:41 | time passes; nothing else changes, and the calls stay paced |
| MarketData.MarketDataClient.ProcessQueue | src/lib/api.ts:17-19 | a call while draining returns at once; otherwise it raises the flag and starts the drain |
| MarketData.MarketDataClient.Enqueue | src/lib/api.ts:73-74 | the task is appended at the end of the queue and a drain is running |
| MarketData.MarketDataClient.DrainStep | src/lib/api.ts:21-34 | an empty queue lowers the flag; otherwise the head runs 12 s or more after the previous call finished, the cache is written only on success, and the clock moves 12 s past its finish |
| MarketData.MarketDataClient.RunToIdle | src/lib/api.ts:17-35 | the loop ends idle, with the cache, clock and log `DrainSpec` gives for the queue it found |
| MarketData.MarketDataClient.MakeRequest | src/lib/api.ts:37-80 | the result is `RequestOutcome`; a cache hit changes no state; a miss drains the queue with the request at its end, and on success leaves a fresh entry for its key |
| MarketData.MarketDataClient.GetStockQuote | src/lib/api.ts:82-113 | an empty symbol gives the zero quote without a request; otherwise the quote read from the request's outcome; a hit changes no state, a miss leaves the cache, clock, queue and log of the drain, with a fresh entry on success |
| MarketData.MarketDataClient.GetStockData | src/lib/api.ts:126-161 | an empty symbol or unknown range gives the empty data without a request; otherwise the data assembled from the outcome, default range `1D`; the new state as for `GetStockQuote` |
| Filters.FilterIsSubsequence | src/components/Notifications.tsx:76 | a filter keeps the passing elements in their order |
| Filters.FilterCounts | src/components/Notifications.tsx:76 | a passing element is kept as often as it occurs, others never |
| Notifications.MarkReadSpec | src/components/Notifications.tsx:47-49 | only `read` changes, and only on entries with the id; length and order stay |
| Notifications.MarkReadIdempotent | src/components/Notifications.tsx:47-49 | marking an id read twice is marking it once |
| Notifications.MarkAllReadSpec | src/components/Notifications.tsx:58 | every entry is read and otherwise unchanged, so the unread count is 0 |
| Notifications.NoneUnread | src/components/Notifications.tsx:101 | the unread count is at most the length, and 0 exactly when all are read |
| Notifications.UnreadCountAppend | src/components/Notifications.tsx:101 | an added unread entry adds one to the count |
| Notifications.MarkReadCount | src/components/Notifications.tsx:47-49 | marking an id read lowers the count by its unread entries |
| Notifications.DeleteSpec | src/components/Notifications.tsx:76 | deletion removes exactly the entries with the id; the rest stay in order, as often as before |
| Notifications.DeleteAbsent | src/components/Notifications.tsx:76 | deleting an id no entry has changes nothing |
| Notifications.NotificationsPanel.constructor | src/components/Notifications.tsx:27 | the list starts empty |
| Notifications.NotificationsPanel.Load | src/components/Notifications.tsx:33-42 | a fetched list replaces the current one; a failed fetch leaves it |
| Notifications.NotificationsPanel.HandleMarkAsRead | src/components/Notifications.tsx:44-53 | the list becomes `MarkRead` after a successful call, else stays |
| Notifications.NotificationsPanel.HandleMarkAllAsRead | src/components/Notifications.tsx:55-62 | after a successful call nothing is unread; a failed call changes nothing |
| Notifications.NotificationsPanel.HandleClearAll | src/components/Notifications.tsx:64-71 | a successful call empties the list; a failed one changes nothing |
| Notifications.NotificationsPanel.HandleDelete | src/components/Notifications.tsx:73-80 | the list becomes `Delete` after a successful call, else stays |
| TradingHistory.FilteredTradesFused | src/components/TradingHistory.tsx:41-48 | the two chained filters keep what one filter on both tests keeps |
| TradingHistory.FilteredTradesSpec | src/components/TradingHistory.tsx:41-48 | shown trades keep their order and counts; a trade is shown exactly when its type matches (or `all`) and the search text occurs in its symbol, ignoring case |
| TradingHistory.ShowAll | src/components/TradingHistory.tsx:43-47 | `all` with an empty search shows every trade |
| TradingHistory.SearchIgnoresCase | src/components/TradingHistory.tsx:47 | search texts that lower-case alike show the same trades |
| TradingHistory.FilteredTradesIdempotent | src/components/TradingHistory.tsx:41-48 | filtering the shown trades again changes nothing |
| AIChat.ReplyPriority | src/components/AIChat.tsx:51-66 | each of the four replies is given exactly when its rule is the first to match |
| AIChat.ReplyIgnoresCase | src/components/AIChat.tsx:52 | the reply does not depend on the message's case |
| AIChat.KeywordAnywhere | src/components/AIChat.tsx:62-63 | `start` in any case anywhere gives the beginner reply when no earlier rule matches |
| AIChat.ChatSession.constructor | src/components/AIChat.tsx:11-18 | the conversation opens with the greeting alone; empty input, not loading |
| AIChat.ChatSession.SetInput | src/components/AIChat.tsx:17 | typing sets the input and nothing else |
| AIChat.ChatSession.Submit | src/components/AIChat.tsx:29-36 | a blank input or a pending reply changes nothing; otherwise the trimmed input is appended, the input cleared, loading raised |
| AIChat.ChatSession.ReceiveReply | src/components/AIChat.tsx:38-47 | the reply to the message is appended and loading lowered |
| AIChat.ChatSession.HandleSubmit | src/components/AIChat.tsx:29-48 | the conversation only grows, by the trimmed message and its reply or by nothing |
| Watchlists.MessageOr | src/components/Watchlist.tsx:191 | `error.message || fallback` is the message when it has one and never empty with a non-empty fallback |
| Watchlists.WithoutItemSpec | src/components/Watchlist.tsx:243-246 | every watchlist stays with id and name; each loses exactly the items with the id, the rest in order, as often as before |
| Watchlists.WithoutAbsentItem | src/components/Watchlist.tsx:243-246 | removing an id no item has changes nothing |
| Watchlists.WithoutWatchlistSpec | src/components/Watchlist.tsx:264 | deletion removes exactly the watchlists with the id; the rest stay in order |
| Watchlists.RenamedSpec | src/components/Watchlist.tsx:286-288 | watchlists with the id get the name; all else is unchanged |
| Watchlists.RenamedIdempotent | src/components/Watchlist.tsx:286-288 | giving the same name twice is giving it once |
| Watchlists.RefreshedListsSpec | src/components/Watchlist.tsx:126-147 | watchlists and items keep count and order; id, symbol and initial price stay; an item takes its quote's price, change and percent, or is unchanged on failure |
| Watchlists.RefreshedListsIdempotent | src/components/Watchlist.tsx:126-147 | refreshing again with the same quotes changes nothing |
| Watchlists.LoadedSpec | src/components/Watchlist.tsx:83-106 | each row stays in order with id and name; a failed item query leaves it with no items, a successful one with the items returned |
| Watchlists.CreateOutcome | src/components/Watchlist.tsx:159-193 | a failed creation leaves the list unchanged |
| Watchlists.CreateOutcomeSpec | src/components/Watchlist.tsx:159-193 | a blank name is refused before any call; success exactly with a user and a returned row; then one empty watchlist is appended under the trimmed name |
| Watchlists.AddOutcome | src/components/Watchlist.tsx:195-232 | a failed addition leaves the list unchanged |
| Watchlists.AddOutcomeSpec | src/components/Watchlist.tsx:195-232 | a blank symbol is refused before any call; the insert carries the trimmed upper-cased symbol and the quote's price; code 23505 reads as a duplicate; success reloads |
| Watchlists.AddIgnoresCase | src/components/Watchlist.tsx:202 | the symbol stored is upper case |
| Watchlists.ZeroQuoteIsStored | src/components/Watchlist.tsx:203-215 | the zero quote of a failed fetch passes the price check: stored at price 0 and refreshed to 0 |
| Watchlists.RemoveOutcome | src/components/Watchlist.tsx:234-253 | the delete is always sent; the removal fails exactly when it reports an error |
| Watchlists.DeleteOutcome | src/components/Watchlist.tsx:255-270 | the delete is always sent; the deletion fails exactly when it reports an error |
| Watchlists.RenameOutcome | src/components/Watchlist.tsx:272-295 | a failed renaming leaves the list unchanged |
| Watchlists.OutcomesChangeOnlyOnSuccess | src/components/Watchlist.tsx:241-294 | remove, delete and rename change the list only when the call reports no error |
| Watchlists.RenameOutcomeSpec | src/components/Watchlist.tsx:272-295 | a blank name is refused before any call; otherwise the trimmed name is sent and, on success, given to the watchlists with the id only |
| Watchlists.LoadOutcome | src/components/Watchlist.tsx:112-117 | the only toast is `Failed to load watchlists` |
| Watchlists.LoadOutcomeSpec | src/components/Watchlist.tsx:69-119 | not signed in or a failed query gives no watchlists; otherwise every row in order, a failed item query leaving it empty |
| Watchlists.WatchlistPanel.constructor | src/components/Watchlist.tsx:27 | the list starts empty |
| Watchlists.WatchlistPanel.LoadWatchlists | src/components/Watchlist.tsx:69-119 | the list and toast are those of `LoadOutcome` |
| Watchlists.WatchlistPanel.RefreshPrices | src/components/Watchlist.tsx:121-157 | the list becomes `RefreshedLists` of the old one |
| Watchlists.WatchlistPanel.CreateWatchlist | src/components/Watchlist.tsx:159-193 | list, toast and write are those of `CreateOutcome` |
| Watchlists.WatchlistPanel.AddToWatchlist | src/components/Watchlist.tsx:195-232 | list, toast and write are those of `AddOutcome`, reloading on success |
| Watchlists.WatchlistPanel.RemoveFromWatchlist | src/components/Watchlist.tsx:234-253 | list and toast are those of `RemoveOutcome` |
| Watchlists.WatchlistPanel.DeleteWatchlist | src/components/Watchlist.tsx:255-270 | list and toast are those of `DeleteOutcome` |
| Watchlists.WatchlistPanel.EditName | src/components/Watchlist.tsx:376-380 | the typed text becomes the name before anything is saved |
| Watchlists.WatchlistPanel.UpdateWatchlistName | src/components/Watchlist.tsx:272-295 | list, toast and write are those of `RenameOutcome` |

## Left out

- **Network, timers and interleaving.** `fetch`, `setTimeout` and `Date.now()` are parameters or the logical clock. The model says nothing about which other caller's code runs while the queue sleeps.
- MarketData.MarketDataClient.MakeRequest: returns once the queue is drained, not when its own task finishes. The result is that task's outcome, and its finish time is in the log.
- **Error messages.** `makeRequest`'s outer `try`/`catch` only logs and rethrows, and `processQueue().catch` only logs. The error text of a failed call is kept as a `FetchError` value, not a message string.
- **Floating point.** JavaScript numbers are unbounded reals. `NaN` appears only as the `None` of a parse.
- Projections.GeneratePredictions: keeps each projected value symbolic. The `Math.random()` draw is a parameter, `Ideal` is exact, and there is no `toFixed(2)` rounding.
- Numbers.ParseFloat: reads plain decimal notation only. Exponents (`"1e3"`) and `Infinity` are not modelled.
- JsonValues.ParseFloatOf: gives `NaN` for an array, where JavaScript converts it to text first (`parseFloat([5])` is 5); the same holds for `JsonValues.ParseIntOf`. The provider's quote fields are strings.
- Text.ToLower: maps ASCII letters only. There is no Unicode case folding, and the same holds for `Text.ToUpper`.
- Sequences.Sort: compares characters by code point, which equals UTF-16 order for the ASCII timestamps the provider sends.
- Series.ProcessTimeSeriesData: keeps labels symbolic, as `formatTimeLabel` (`src/lib/api.ts:253-285`) uses locale `Date` formatting.
- JsonValues.Keys: gives no keys for a series value that is a JSON array or string. `Object.keys` would list its indices.
- TimeRanges.Href: writes the query without percent-encoding.
- **Concurrency.** `Promise.all` in `loadWatchlists` and `refreshPrices` is a plain map. Every item query and quote lookup is an input.
- Watchlists.WatchlistPanel.RefreshPrices: `quoteOf` returns `None` when `getStockQuote` throws or returns no numeric price. With `getStockQuote` as written, that never happens (`Watchlists.ZeroQuoteIsStored`). The outer `catch` (`Failed to refresh prices`) is unreachable, because every item's failure is caught.
- Watchlists.WatchlistPanel.LoadWatchlists: takes the signed-in flag its caller sees as a parameter. The auth effect is not modelled: `checkAuth`, `onAuthStateChange` and their calls at lines 37-67.
- Watchlists.WatchlistRow: carries only `id` and `name`. The other columns returned by `select('*')` are not carried. A created watchlist takes the name that was inserted, and the database supplies only its id.
- **UI resets and flags.** These are not modelled:
  - clearing the name and symbol inputs;
  - closing the editors;
  - the `loading` and `refreshing` flags;
  - scrolling;
  - the P/L percentage at `src/components/Watchlist.tsx:464-466`.
- **Toasts and logging.** Console logging and the toasts of `getStockQuote`/`getStockData` are not modelled. Watchlist handlers return their toast as a `Notice`; the other components' toasts are left out.
- AIChat.ChatSession.HandleSubmit: runs its two halves back to back. The error branch is unreachable, because `simulateAIResponse` cannot throw.
- **Other parts of the repository** are not part of this model:
  - the persistence wrappers of `src/lib/api.ts:302-469`, which are given as remote-call results;
  - the Supabase client;
  - the notification icon and time formatting.
