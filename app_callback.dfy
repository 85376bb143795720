/** The `update_graphs` callback of the first entry point (app.py): a click
    with both dropdowns set posts the payload, and the records that come
    back are shaped into line and bar traces. The series of the "All"
    branch are appended one indicator at a time inside a loop. */
module AppCallback {
  import opened Dashboard

  /** What one callback invocation returns; `api` answers the POST. */
  function Decide<V>(nClicks: nat, year: Option<Scalar>, indicator: Option<string>,
                     catalog: seq<string>, api: Payload -> Fetch<V>): (r: Reply<V>)
    ensures r.sent.None? <==> nClicks == 0 || year.None? || indicator.None?
    ensures r.sent.None? ==> r.figures == Empty
    ensures r.sent.Some? ==> r.sent.value == PayloadOf(year.value, indicator.value)
    ensures r.figures.Charts? ==> r.figures.line == r.figures.bar
  {
    if nClicks > 0 then
      if year.None? || indicator.None? then Reply(None, Empty)
      else
        var payload := PayloadOf(year.value, indicator.value);
        Reply(Some(payload), Respond(indicator.value, catalog, api(payload)))
    else Reply(None, Empty)
  }

  /** The figures for the answer to a request made with indicator `selected`. */
  function Respond<V>(selected: string, catalog: seq<string>, outcome: Fetch<V>): (f: Figures<V>)
    ensures f == Empty <==> outcome.Failed?
    ensures outcome.Fetched? && outcome.body.data.None? ==> f == MissingField(DATA_KEY)
  {
    match outcome
    case Failed => Empty
    case Fetched(Response(None)) => MissingField(DATA_KEY)
    case Fetched(Response(Some(data))) =>
      if selected == ALL then AllCharts(catalog, data) else OneChart(selected, data)
  }

  /** The "All" branch: the years column is read on every pass of the loop,
      so a record without `Years` raises only when the catalog is not empty. */
  function AllCharts<V>(catalog: seq<string>, data: seq<Record<V>>): (f: Figures<V>)
    ensures f.Charts? ==> f.line == f.bar && |f.line| == |catalog|
    ensures f.MissingField? ==> f.key == YEARS
    ensures !f.Empty?
  {
    if catalog == [] then Charts([], [])
    else match Index(data, YEARS)
      case KeyError(k) => MissingField(k)
      case Found(xs) => Charts(AllSeries(catalog, data, xs), AllSeries(catalog, data, xs))
  }

  /** The single-indicator branch: the indicator column is read before the
      years column, both strictly. */
  function OneChart<V>(selected: string, data: seq<Record<V>>): (f: Figures<V>)
    ensures f.Charts? ==> f.line == f.bar && |f.line| == 1 && f.line[0].name == selected
    ensures f.MissingField? ==> f.key == selected || f.key == YEARS
    ensures !f.Empty?
  {
    match Index(data, selected)
    case KeyError(k) => MissingField(k)
    case Found(ys) =>
      match Index(data, YEARS)
      case KeyError(k) => MissingField(k)
      case Found(xs) =>
        var s := Series(selected, xs, Present(ys));
        Charts([s], [s])
  }

  /** The loop that appends one line trace and one bar trace per catalog indicator. */
  method FillAllSeries<V>(catalog: seq<string>, data: seq<Record<V>>) returns (figures: Figures<V>)
    ensures figures == AllCharts(catalog, data)
  {
    var line: seq<Series<V>> := [];
    var bar: seq<Series<V>> := [];
    for k := 0 to |catalog|
      invariant |line| == |bar| == k
      invariant k > 0 ==> Index(data, YEARS).Found?
      invariant forall j :: 0 <= j < k ==>
        line[j] == bar[j] == Series(catalog[j], Index(data, YEARS).values, Column(data, catalog[j]))
    {
      var ys := Column(data, catalog[k]);
      var xs := Index(data, YEARS);
      if xs.KeyError? {
        return MissingField(xs.key);
      }
      line := line + [Series(catalog[k], xs.values, ys)];
      bar := bar + [Series(catalog[k], xs.values, ys)];
    }
    if catalog != [] {
      forall j | 0 <= j < |catalog|
        ensures line[j] == AllSeries(catalog, data, Index(data, YEARS).values)[j]
      {
        AllSeriesAt(catalog, data, Index(data, YEARS).values, j);
      }
    }
    figures := Charts(line, bar);
  }

  /** The callback as the source runs it: guards, in-place payload, POST, shaping. */
  method UpdateGraphs<V>(nClicks: nat, year: Option<Scalar>, indicator: Option<string>,
                         catalog: seq<string>, api: Payload -> Fetch<V>) returns (reply: Reply<V>)
    ensures reply == Decide(nClicks, year, indicator, catalog, api)
  {
    if nClicks > 0 {
      if year.None? || indicator.None? {
        return Reply(None, Empty);
      }
      var payload := BuildPayload(year.value, indicator.value);
      var outcome := api(payload);
      if outcome.Failed? {
        return Reply(Some(payload), Empty);
      }
      if outcome.body.data.None? {
        return Reply(Some(payload), MissingField(DATA_KEY));
      }
      var data := outcome.body.data.value;
      var figures;
      if indicator.value == ALL {
        figures := FillAllSeries(catalog, data);
      } else {
        figures := OneChart(indicator.value, data);
      }
      return Reply(Some(payload), figures);
    }
    return Reply(None, Empty);
  }

  // ---------------------------------------------------------------------
  // Properties

  /** The "All" branch: with an empty catalog, no series at all; otherwise a
      record without `Years` raises, and else there is one series per catalog
      indicator, in catalog order, the same for line and bar, each plotting
      that indicator with gaps where a record lacks it. */
  lemma AllChartsShape<V>(catalog: seq<string>, data: seq<Record<V>>)
    ensures catalog == [] ==> AllCharts(catalog, data) == Charts([], [])
    ensures catalog != [] && (exists i :: 0 <= i < |data| && YEARS !in data[i]) ==>
      AllCharts(catalog, data) == MissingField(YEARS)
    ensures (forall i :: 0 <= i < |data| ==> YEARS in data[i]) ==>
      var f := AllCharts(catalog, data);
      && f.Charts?
      && f.line == f.bar
      && |f.line| == |catalog|
      && forall k :: 0 <= k < |catalog| ==> Plots(f.line[k], catalog[k], data)
  {
    IndexFound(data, YEARS);
    if Index(data, YEARS).Found? {
      PlotsAll(catalog, data, Index(data, YEARS).values);
    }
  }

  /** The single-indicator branch: a record without the indicator raises
      KeyError for it; else a record without `Years` raises KeyError for
      `Years`; else exactly one series, named after the indicator, plotting
      each record's value of it. */
  lemma OneChartShape<V>(selected: string, data: seq<Record<V>>)
    ensures (exists i :: 0 <= i < |data| && selected !in data[i]) ==>
      OneChart(selected, data) == MissingField(selected)
    ensures (forall i :: 0 <= i < |data| ==> selected in data[i]) &&
            (exists i :: 0 <= i < |data| && YEARS !in data[i]) ==>
      OneChart(selected, data) == MissingField(YEARS)
    ensures (forall i :: 0 <= i < |data| ==> selected in data[i] && YEARS in data[i]) ==>
      var f := OneChart(selected, data);
      && f.Charts?
      && f.line == f.bar
      && |f.line| == 1
      && Plots(f.line[0], selected, data)
  {
    IndexFound(data, selected);
    IndexFound(data, YEARS);
    if Index(data, selected).Found? && Index(data, YEARS).Found? {
      PlotsStrict(selected, data, Index(data, YEARS).values, Index(data, selected).values);
    }
  }

  /** No check for an empty record list: zero records still give traces,
      each of them with no points. */
  lemma EmptyDataGivesEmptyTraces<V>(selected: string, catalog: seq<string>)
    ensures var f := Respond<V>(selected, catalog, Fetched(Response(Some([]))));
      && f.Charts?
      && |f.line| == (if selected == ALL then |catalog| else 1)
      && forall s :: s in f.line ==> s.x == [] && s.y == []
  {
    var data: seq<Record<V>> := [];
    AllChartsShape(catalog, data);
    OneChartShape(selected, data);
  }
}
