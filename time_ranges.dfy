/** The Alpha Vantage query parameters: the table from a chart time range to
    the provider's series function, bar interval, number of points kept and
    the response member holding the series; the query URLs; and the cache
    keys the two entry points use. */
module TimeRanges {
  import opened Wrappers

  const BaseUrl: string := "https://www.alphavantage.co/query"

  /** The chart ranges `1D`, `1W`, `1M`, `3M`, `1Y` and `ALL`. */
  datatype TimeRange = OneDay | OneWeek | OneMonth | ThreeMonths | OneYear | All

  function RangeName(t: TimeRange): string {
    match t
    case OneDay => "1D"
    case OneWeek => "1W"
    case OneMonth => "1M"
    case ThreeMonths => "3M"
    case OneYear => "1Y"
    case All => "ALL"
  }

  /** The range a string names, if it names one. */
  function ParseTimeRange(s: string): (r: Option<TimeRange>)
    ensures r.Some? ==> RangeName(r.value) == s
  {
    if s == "1D" then Some(OneDay)
    else if s == "1W" then Some(OneWeek)
    else if s == "1M" then Some(OneMonth)
    else if s == "3M" then Some(ThreeMonths)
    else if s == "1Y" then Some(OneYear)
    else if s == "ALL" then Some(All)
    else None
  }

  /** Every range is recognised by its own name. */
  lemma ParseRangeName(t: TimeRange)
    ensures ParseTimeRange(RangeName(t)) == Some(t)
  {
  }

  /** `TimeRangeConfig`: `apiFunction` is the provider's `function` parameter. */
  datatype TimeRangeConfig = TimeRangeConfig(apiFunction: string, interval: Option<string>, limit: nat, dataKey: string)

  datatype RangeError = InvalidTimeRange

  /** `getTimeRangeConfig`: the `switch` over the range names; any other
      string throws `Invalid time range`. */
  function GetTimeRangeConfig(timeRange: string): (r: Result<TimeRangeConfig, RangeError>)
    ensures r.Success? <==> ParseTimeRange(timeRange).Some?
    ensures r.Success? ==> r.value.limit > 0
    ensures r.Success? ==> (r.value.interval.Some? <==> r.value.apiFunction == "TIME_SERIES_INTRADAY")
  {
    if timeRange == "1D" then
      Success(TimeRangeConfig("TIME_SERIES_INTRADAY", Some("5min"), 78, "Time Series (5min)"))
    else if timeRange == "1W" then
      Success(TimeRangeConfig("TIME_SERIES_INTRADAY", Some("60min"), 33, "Time Series (60min)"))
    else if timeRange == "1M" then
      Success(TimeRangeConfig("TIME_SERIES_DAILY", None, 22, "Time Series (Daily)"))
    else if timeRange == "3M" then
      Success(TimeRangeConfig("TIME_SERIES_DAILY", None, 66, "Time Series (Daily)"))
    else if timeRange == "1Y" || timeRange == "ALL" then
      Success(TimeRangeConfig("TIME_SERIES_WEEKLY", None, if timeRange == "1Y" then 52 else 1000, "Weekly Time Series"))
    else
      Failure(InvalidTimeRange)
  }

  /** The configuration table, row by row, and the error for everything else. */
  lemma TimeRangeTable(s: string)
    ensures GetTimeRangeConfig("1D") == Success(TimeRangeConfig("TIME_SERIES_INTRADAY", Some("5min"), 78, "Time Series (5min)"))
    ensures GetTimeRangeConfig("1W") == Success(TimeRangeConfig("TIME_SERIES_INTRADAY", Some("60min"), 33, "Time Series (60min)"))
    ensures GetTimeRangeConfig("1M") == Success(TimeRangeConfig("TIME_SERIES_DAILY", None, 22, "Time Series (Daily)"))
    ensures GetTimeRangeConfig("3M") == Success(TimeRangeConfig("TIME_SERIES_DAILY", None, 66, "Time Series (Daily)"))
    ensures GetTimeRangeConfig("1Y") == Success(TimeRangeConfig("TIME_SERIES_WEEKLY", None, 52, "Weekly Time Series"))
    ensures GetTimeRangeConfig("ALL") == Success(TimeRangeConfig("TIME_SERIES_WEEKLY", None, 1000, "Weekly Time Series"))
    ensures s !in {"1D", "1W", "1M", "3M", "1Y", "ALL"} ==> GetTimeRangeConfig(s) == Failure(InvalidTimeRange)
  {
  }

  /** A URL as `new URL(BaseUrl)` with appended search parameters. */
  datatype Url = Url(base: string, query: seq<(string, string)>)

  /** The value of the first query parameter with that name. */
  function Param(query: seq<(string, string)>, name: string): Option<string> {
    if query == [] then None
    else if query[0].0 == name then Some(query[0].1)
    else Param(query[1..], name)
  }

  function ParamNames(query: seq<(string, string)>): (r: seq<string>)
    ensures |r| == |query|
  {
    if query == [] then [] else [query[0].0] + ParamNames(query[1..])
  }

  /** `buildApiUrl`: `function`, `symbol`, the interval when the range has
      one, then `apikey`, in that order. */
  function BuildApiUrl(symbol: string, config: TimeRangeConfig, apiKey: string): (u: Url)
    ensures u.base == BaseUrl
  {
    match config.interval
    case Some(i) =>
      Url(BaseUrl, [("function", config.apiFunction), ("symbol", symbol), ("interval", i), ("apikey", apiKey)])
    case None =>
      Url(BaseUrl, [("function", config.apiFunction), ("symbol", symbol), ("apikey", apiKey)])
  }

  /** The query of `buildApiUrl` names its four (or three) parameters in
      order, and each carries the symbol, key or configuration value. */
  lemma BuildApiUrlParams(symbol: string, config: TimeRangeConfig, apiKey: string)
    ensures var q := BuildApiUrl(symbol, config, apiKey).query;
      && ParamNames(q) == ["function", "symbol"] + (if config.interval.Some? then ["interval"] else []) + ["apikey"]
      && Param(q, "function") == Some(config.apiFunction)
      && Param(q, "symbol") == Some(symbol)
      && Param(q, "interval") == config.interval
      && Param(q, "apikey") == Some(apiKey)
  {
    var q := BuildApiUrl(symbol, config, apiKey).query;
    var last := [("apikey", apiKey)];
    assert Param(last, "interval") == None && ParamNames(last) == ["apikey"] by {
      assert last[1..] == [];
      assert ParamNames(last) == [last[0].0] + ParamNames([]);
    }
    var rest := if config.interval.Some? then [("interval", config.interval.value)] + last else last;
    assert q == [("function", config.apiFunction), ("symbol", symbol)] + rest;
    assert q[1..] == [("symbol", symbol)] + rest;
    assert q[1..][1..] == rest;
    if config.interval.Some? {
      assert rest[1..] == last;
      assert ParamNames(rest) == ["interval", "apikey"];
      assert Param(rest, "apikey") == Some(apiKey);
      assert Param(rest, "interval") == config.interval;
    }
    assert ParamNames(q[1..]) == ["symbol"] + ParamNames(rest);
    assert Param(q, "apikey") == Param(rest, "apikey");
    assert Param(q, "interval") == Param(rest, "interval");
  }

  function JoinQuery(query: seq<(string, string)>): string {
    if query == [] then ""
    else if |query| == 1 then query[0].0 + "=" + query[0].1
    else query[0].0 + "=" + query[0].1 + "&" + JoinQuery(query[1..])
  }

  /** `url.toString()`, without percent-encoding. */
  function Href(u: Url): string {
    u.base + "?" + JoinQuery(u.query)
  }

  /** The quote URL `getStockQuote` writes out by template. */
  function QuoteUrl(symbol: string, apiKey: string): string {
    BaseUrl + "?function=GLOBAL_QUOTE&symbol=" + symbol + "&apikey=" + apiKey
  }

  /** `quote_${symbol}`. */
  function QuoteCacheKey(symbol: string): string {
    "quote_" + symbol
  }

  /** `data_${symbol}_${timeRange}`. */
  function DataCacheKey(symbol: string, timeRange: string): string {
    "data_" + symbol + "_" + timeRange
  }

  /** Quote keys and series keys never collide. */
  lemma CacheKeysDisjoint(a: string, b: string, timeRange: string)
    ensures QuoteCacheKey(a) != DataCacheKey(b, timeRange)
  {
    assert QuoteCacheKey(a)[0] == 'q';
    assert DataCacheKey(b, timeRange)[0] == 'd';
  }

  /** A quote key names one symbol. */
  lemma QuoteCacheKeyInjective(a: string, b: string)
    requires QuoteCacheKey(a) == QuoteCacheKey(b)
    ensures a == b
  {
    assert a == QuoteCacheKey(a)[6..];
  }

  /** For the ranges that reach the cache, a series key names one symbol and
      one range, even when the symbol holds an underscore. */
  lemma DataCacheKeyInjective(s1: string, r1: string, s2: string, r2: string)
    requires ParseTimeRange(r1).Some? && ParseTimeRange(r2).Some?
    requires DataCacheKey(s1, r1) == DataCacheKey(s2, r2)
    ensures s1 == s2 && r1 == r2
  {
    var k := DataCacheKey(s1, r1);
    var n := |k|;
    assert k == ("data_" + s1 + "_") + r1 == ("data_" + s2 + "_") + r2;
    // The character three from the end is '_' for a two-letter range and
    // 'A' for "ALL", so both keys end in ranges of the same length.
    assert |r1| == 2 ==> k[n - 3] == '_';
    assert |r1| == 3 ==> k[n - 3] == r1[0] == 'A';
    assert |r2| == 2 ==> k[n - 3] == '_';
    assert |r2| == 3 ==> k[n - 3] == r2[0] == 'A';
    assert |r1| == |r2|;
    assert r1 == k[n - |r1|..] == r2;
    assert s1 == k[5..n - |r1| - 1] == s2;
  }
}
