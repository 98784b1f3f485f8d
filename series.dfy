/** `processTimeSeriesData`: from the provider's series object (timestamp to
    bar) to index-aligned labels and closing prices. The timestamps are
    sorted, the last `limit` kept and the list reversed once, so the output
    runs from the newest bar to the oldest. */
module Series {
  import opened Wrappers
  import opened Sequences
  import opened JsonValues
  import opened TimeRanges

  /** A chart label. `TimeLabel(time, range)` stands for
      `formatTimeLabel(time, range)`, whose locale formatting is not modelled;
      `Caption` is a literal label such as `+5min`. */
  datatype Label = TimeLabel(time: string, range: TimeRange) | Caption(text: string)

  datatype ProcessedSeries = ProcessedSeries(labels: seq<Label>, prices: seq<real>)

  /** Reading `'4. close'` of a bar that is `null` (or absent) throws a
      `TypeError`. */
  datatype SeriesError = NullBar(time: string)

  /** `parseFloat(series[time]['4. close'])`, with `NaN` read as 0. */
  function ClosePrice(series: Json, time: string): Result<real, SeriesError> {
    match Get(series, time)
    case None => Failure(NullBar(time))
    case Some(Null) => Failure(NullBar(time))
    case Some(bar) => Success(ParseFloatOf(Get(bar, "4. close")).GetOr(0.0))
  }

  /** `times.map(...)` over `ClosePrice`: the first bar that throws ends it. */
  function ClosePrices(series: Json, times: seq<string>): (r: Result<seq<real>, SeriesError>)
    ensures r.Success? <==> forall i :: 0 <= i < |times| ==> ClosePrice(series, times[i]).Success?
    ensures r.Success? ==> |r.value| == |times|
    ensures r.Success? ==> forall i :: 0 <= i < |times| ==> r.value[i] == ClosePrice(series, times[i]).value
  {
    if times == [] then Success([])
    else
      match ClosePrice(series, times[0])
      case Failure(e) => Failure(e)
      case Success(p) =>
        match ClosePrices(series, times[1..])
        case Failure(e) => Failure(e)
        case Success(ps) =>
          assert forall i :: 1 <= i < |times| ==> times[i] == times[1..][i - 1];
          Success([p] + ps)
  }

  /** The timestamps kept: `Object.keys(series).sort().slice(-limit).reverse()`. */
  function KeptTimes(series: Json, limit: nat): seq<string> {
    Latest(Keys(series), limit)
  }

  function ProcessTimeSeriesData(series: Json, range: TimeRange, limit: nat): Result<ProcessedSeries, SeriesError> {
    var times := KeptTimes(series, limit);
    var prices :- ClosePrices(series, times);
    Success(ProcessedSeries(seq(|times|, i requires 0 <= i < |times| => TimeLabel(times[i], range)), prices))
  }

  /** The processed series keeps `min(limit, #keys)` points, the newest
      timestamps, newest first; labels and prices are index-aligned, each
      price the close of the bar its label names. It fails exactly when a kept
      bar is `null`. */
  lemma ProcessedSeriesSpec(series: Json, range: TimeRange, limit: nat)
    requires limit > 0
    ensures var times := KeptTimes(series, limit);
      && |times| == (if limit < |Keys(series)| then limit else |Keys(series)|)
      && (forall i, j :: 0 <= i < j < |times| ==> times[i] != times[j] && Below(times[j], times[i]))
      && (forall k, i :: k in Keys(series) && k !in times && 0 <= i < |times| ==> Below(k, times[i]) && k != times[i])
      && (ProcessTimeSeriesData(series, range, limit).Success? <==>
            forall i :: 0 <= i < |times| ==> Get(series, times[i]) != Some(Null))
      && (ProcessTimeSeriesData(series, range, limit).Success? ==>
            var p := ProcessTimeSeriesData(series, range, limit).value;
            && |p.labels| == |p.prices| == |times|
            && forall i :: 0 <= i < |times| ==>
                 p.labels[i] == TimeLabel(times[i], range) && p.prices[i] == ClosePrice(series, times[i]).value)
  {
    var times := KeptTimes(series, limit);
    KeptTimesSpec(series, limit);
    forall i | 0 <= i < |times|
      ensures ClosePrice(series, times[i]).Success? <==> Get(series, times[i]) != Some(Null)
    {
      assert Get(series, times[i]).Some?;
    }
  }

  /** The kept times are keys of the series, distinct, newest first, and
      every key left out is older than all of them. */
  lemma KeptTimesSpec(series: Json, limit: nat)
    requires limit > 0
    ensures var times := KeptTimes(series, limit);
      && |times| == (if limit < |Keys(series)| then limit else |Keys(series)|)
      && (forall i, j :: 0 <= i < j < |times| ==> times[i] != times[j] && Below(times[j], times[i]))
      && (forall k, i :: k in Keys(series) && k !in times && 0 <= i < |times| ==> Below(k, times[i]) && k != times[i])
      && (forall i :: 0 <= i < |times| ==> Get(series, times[i]).Some?)
  {
    var times := KeptTimes(series, limit);
    KeysPresent(series);
    LatestFirst(Keys(series), limit);
    forall i | 0 <= i < |times|
      ensures Get(series, times[i]).Some?
    {
      assert times[i] in Keys(series);
    }
  }

  /** A close price that does not parse is read as 0 rather than raising. */
  lemma UnparsableCloseIsZero(series: Json, time: string, bar: Json)
    requires Get(series, time) == Some(bar) && bar != Null
    requires ParseFloatOf(Get(bar, "4. close")).None?
    ensures ClosePrice(series, time) == Success(0.0)
  {
  }
}
