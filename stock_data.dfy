/** The chart data `getStockData` returns once the provider's response is in
    hand: the series member is picked out, processed, and for the `1D` range
    extended by ten projected points. */
module StockData {
  import opened Wrappers
  import opened JsonValues
  import opened TimeRanges
  import opened Series
  import opened Projections
  import Numbers

  /** `{ labels, actual, predicted }`; a `None` in `predicted` is `null`. */
  datatype StockData = StockData(labels: seq<Label>, actual: seq<real>, predicted: seq<Option<Projection>>)

  /** `getEmptyStockData()`. */
  const EmptyStockData: StockData := StockData([], [], [])

  /** The configuration row of a range that is known to be valid. */
  function RangeConfig(range: TimeRange): (c: TimeRangeConfig)
    ensures GetTimeRangeConfig(RangeName(range)) == Success(c)
  {
    GetTimeRangeConfig(RangeName(range)).value
  }

  /** `extractTimeSeriesData`: `data[config.dataKey] || null`. */
  function ExtractTimeSeriesData(data: Json, config: TimeRangeConfig): (r: Json)
    ensures Truthy(r) ==> Get(data, config.dataKey) == Some(r)
    ensures !Truthy(r) ==> r == Null
  {
    match Get(data, config.dataKey)
    case Some(v) => if Truthy(v) then v else Null
    case None => Null
  }

  /** The label of the `i`-th future point, `+${(i + 1) * 5}min`. */
  function FutureLabel(i: nat): Label {
    Caption("+" + Numbers.Decimal((i + 1) * 5) + "min")
  }

  /** The ten labels `+5min` … `+50min` appended for the `1D` range. */
  function FutureLabels(): (r: seq<Label>)
    ensures |r| == ProjectionCount
  {
    seq(ProjectionCount, i requires 0 <= i < ProjectionCount => FutureLabel(i))
  }

  function Nulls(n: nat): (r: seq<Option<Projection>>)
    ensures |r| == n && forall i :: 0 <= i < n ==> r[i] == None
  {
    seq(n, _ => None)
  }

  function Somes(ps: seq<Projection>): (r: seq<Option<Projection>>)
    ensures |r| == |ps| && forall i :: 0 <= i < |ps| ==> r[i] == Some(ps[i])
  {
    seq(|ps|, i requires 0 <= i < |ps| => Some(ps[i]))
  }

  /** The returned object built from a processed series. */
  function Assemble(p: ProcessedSeries, range: TimeRange, draw: nat -> real): StockData {
    if range == OneDay then
      StockData(p.labels + FutureLabels(), p.prices,
                Nulls(|p.prices|) + Somes(GeneratePredictions(p.prices, draw)))
    else
      StockData(p.labels, p.prices, [])
  }

  /** What `getStockData` returns for a validated response, the range being
      valid: the empty data when the series member is missing, falsy or has
      no keys, or when a kept bar is `null`. */
  function StockDataFromPayload(data: Json, range: TimeRange, draw: nat -> real): StockData {
    var config := RangeConfig(range);
    var series := ExtractTimeSeriesData(data, config);
    if !Truthy(series) || KeyCount(series) == 0 then EmptyStockData
    else
      match ProcessTimeSeriesData(series, range, config.limit)
      case Failure(_) => EmptyStockData
      case Success(p) => Assemble(p, range, draw)
  }

  /** The shape of the returned data. For `1D` the labels run ten past the
      prices, ending in `+5min` … `+50min`, and `predicted` is one `null`
      per price followed by the projections (none below two prices, ten
      otherwise). For every other range the labels match the prices and
      nothing is predicted. */
  lemma AssembleShape(p: ProcessedSeries, range: TimeRange, draw: nat -> real)
    requires |p.labels| == |p.prices|
    ensures var s := Assemble(p, range, draw);
      && s.actual == p.prices
      && s.labels[..|p.labels|] == p.labels
      && (range == OneDay ==>
            && |s.labels| == |s.actual| + 10
            && (forall i :: 0 <= i < 10 ==> s.labels[|s.actual| + i] == FutureLabel(i))
            && |s.predicted| == |s.actual| + (if |s.actual| < 2 then 0 else 10)
            && (forall i :: 0 <= i < |s.actual| ==> s.predicted[i] == None)
            && (forall i :: |s.actual| <= i < |s.predicted| ==> s.predicted[i].Some?))
      && (range != OneDay ==> |s.labels| == |s.actual| && s.predicted == [])
  {
    var s := Assemble(p, range, draw);
    if range == OneDay {
      var preds := GeneratePredictions(p.prices, draw);
      assert |preds| == (if |p.prices| < 2 then 0 else 10) by {
        PredictionsShape(p.prices, draw);
      }
      var labels := p.labels + FutureLabels();
      assert s.labels == labels;
      assert labels[..|p.labels|] == p.labels;
      forall i | 0 <= i < 10
        ensures s.labels[|s.actual| + i] == FutureLabel(i)
      {
        assert labels[|p.labels| + i] == FutureLabels()[i];
      }
      var predicted := Nulls(|p.prices|) + Somes(preds);
      assert s.predicted == predicted;
      forall i | 0 <= i < |s.actual|
        ensures s.predicted[i] == None
      {
        assert predicted[i] == Nulls(|p.prices|)[i];
      }
      forall i | |s.actual| <= i < |s.predicted|
        ensures s.predicted[i].Some?
      {
        assert predicted[i] == Somes(preds)[i - |p.prices|];
      }
    } else {
      assert s.labels[..|p.labels|] == p.labels;
    }
  }

  /** The first future label is `+5min` and the last `+50min`. */
  lemma FutureLabelEnds()
    ensures FutureLabel(0) == Caption("+5min")
    ensures FutureLabel(9) == Caption("+50min")
  {
    assert Numbers.Decimal(5) == "5";
    assert Numbers.Decimal(50) == Numbers.Decimal(5) + "0";
  }

  /** Every successful result is index-aligned: for `1D` the projections
      continue from the last price in the list — the close of the OLDEST
      bar kept, since the list runs newest first — with trend +0.001 exactly
      when that close is above the close of the bar after it. */
  lemma PredictionAnchor(data: Json, draw: nat -> real)
    requires var s := StockDataFromPayload(data, OneDay, draw); |s.actual| >= 2
    ensures var s := StockDataFromPayload(data, OneDay, draw);
      var series := ExtractTimeSeriesData(data, RangeConfig(OneDay));
      var times := KeptTimes(series, 78);
      var n := |s.actual|;
      && n == |times|
      && s.actual[n - 1] == ClosePrice(series, times[n - 1]).value
      && (forall j :: 0 <= j < n - 1 ==> Sequences.Below(times[n - 1], times[j]) && times[j] != times[n - 1])
      && (forall i :: n <= i < |s.predicted| ==>
            && s.predicted[i].value.anchor == s.actual[n - 1]
            && (s.predicted[i].value.trend > 0.0 <==> s.actual[n - 1] > s.actual[n - 2]))
  {
    var config := RangeConfig(OneDay);
    var series := ExtractTimeSeriesData(data, config);
    var p := ProcessTimeSeriesData(series, OneDay, config.limit);
    ProcessedSeriesSpec(series, OneDay, config.limit);
    var times := KeptTimes(series, 78);
    var s := StockDataFromPayload(data, OneDay, draw);
    assert p.Success? && s == Assemble(p.value, OneDay, draw);
    PredictionsShape(p.value.prices, draw);
  }

  /** A payload whose series member is absent, falsy or empty, or whose kept
      bars include a `null`, gives the empty data. */
  lemma EmptyWhenNoSeries(data: Json, range: TimeRange, draw: nat -> real)
    ensures var series := ExtractTimeSeriesData(data, RangeConfig(range));
      (series == Null || KeyCount(series) == 0 ||
       exists i :: 0 <= i < |KeptTimes(series, RangeConfig(range).limit)| &&
                   Get(series, KeptTimes(series, RangeConfig(range).limit)[i]) == Some(Null))
      ==> StockDataFromPayload(data, range, draw) == EmptyStockData
  {
    var config := RangeConfig(range);
    var series := ExtractTimeSeriesData(data, config);
    ProcessedSeriesSpec(series, range, config.limit);
  }
}
