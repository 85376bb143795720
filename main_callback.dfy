/** The `update_graphs` callback of the second entry point (main.py). It
    differs from app.py's: a selection counts as unset when it is falsy, a
    missing `data` key reads as no records, no records give empty figures,
    and the years column is read once, before either branch. Its traces are
    built by comprehensions over the catalog, so the shaping is a function. */
module MainCallback {
  import opened Dashboard

  /** Python's `not value` for a dropdown value: None, "" and 0 are falsy. */
  predicate Falsy(v: Option<Scalar>)
  {
    v.None? || v.value == Text("") || v.value == Number(0)
  }

  /** Python's `not value` for an indicator name: None and "" are falsy. */
  predicate FalsyName(v: Option<string>)
  {
    v.None? || v.value == ""
  }

  /** What one callback invocation returns; `api` answers the POST. */
  function Decide<V>(nClicks: nat, year: Option<Scalar>, indicator: Option<string>,
                     catalog: seq<string>, api: Payload -> Fetch<V>): (r: Reply<V>)
    ensures r.sent.None? <==> nClicks == 0 || Falsy(year) || FalsyName(indicator)
    ensures r.sent.None? ==> r.figures == Empty
    ensures r.sent.Some? ==> r.sent.value == PayloadOf(year.value, indicator.value)
    ensures r.figures.Charts? ==> r.figures.line == r.figures.bar
  {
    if nClicks > 0 then
      if Falsy(year) || FalsyName(indicator) then Reply(None, Empty)
      else
        var payload := PayloadOf(year.value, indicator.value);
        Reply(Some(payload), Respond(indicator.value, catalog, api(payload)))
    else Reply(None, Empty)
  }

  /** The body's records; a body without a `data` key counts as no records. */
  function Records<V>(body: Response<V>): seq<Record<V>>
  {
    match body.data
    case None => []
    case Some(data) => data
  }

  /** The figures for the answer to a request made with indicator `selected`. */
  function Respond<V>(selected: string, catalog: seq<string>, outcome: Fetch<V>): (f: Figures<V>)
    ensures f == Empty <==>
      outcome.Failed? || outcome.body.data.None? || outcome.body.data.value == []
  {
    match outcome
    case Failed => Empty
    case Fetched(body) =>
      var data := Records(body);
      if data == [] then Empty else Graphs(selected, catalog, data)
  }

  /** The traces for a non-empty record list: `x_values` first, then one
      series per catalog indicator ("All") or one strict series. */
  function Graphs<V>(selected: string, catalog: seq<string>, data: seq<Record<V>>): (f: Figures<V>)
    ensures f.Charts? ==> f.line == f.bar
    ensures f.Charts? && selected == ALL ==> |f.line| == |catalog|
    ensures f.Charts? && selected != ALL ==> |f.line| == 1 && f.line[0].name == selected
    ensures f.MissingField? ==> f.key == YEARS || (selected != ALL && f.key == selected)
    ensures !f.Empty?
  {
    match Index(data, YEARS)
    case KeyError(k) => MissingField(k)
    case Found(xs) =>
      if selected == ALL then
        Charts(AllSeries(catalog, data, xs), AllSeries(catalog, data, xs))
      else
        match Index(data, selected)
        case KeyError(k) => MissingField(k)
        case Found(ys) =>
          Charts([Series(selected, xs, Present(ys))], [Series(selected, xs, Present(ys))])
  }

  /** The callback as the source runs it: guards, in-place payload, POST, shaping. */
  method UpdateGraphs<V>(nClicks: nat, year: Option<Scalar>, indicator: Option<string>,
                         catalog: seq<string>, api: Payload -> Fetch<V>) returns (reply: Reply<V>)
    ensures reply == Decide(nClicks, year, indicator, catalog, api)
  {
    if nClicks > 0 {
      if Falsy(year) || FalsyName(indicator) {
        return Reply(None, Empty);
      }
      var payload := BuildPayload(year.value, indicator.value);
      var outcome := api(payload);
      if outcome.Failed? {
        return Reply(Some(payload), Empty);
      }
      var data := Records(outcome.body);
      if data == [] {
        return Reply(Some(payload), Empty);
      }
      return Reply(Some(payload), Graphs(indicator.value, catalog, data));
    }
    return Reply(None, Empty);
  }

  // ---------------------------------------------------------------------
  // Properties

  /** The years column is read once, before the branch: a record without
      `Years` raises for any selection and any catalog, and otherwise every
      trace, line or bar, carries the records' years in record order. */
  lemma SharedYears<V>(selected: string, catalog: seq<string>, data: seq<Record<V>>)
    ensures (exists i :: 0 <= i < |data| && YEARS !in data[i]) ==>
      Graphs(selected, catalog, data) == MissingField(YEARS)
    ensures var f := Graphs(selected, catalog, data);
      f.Charts? ==>
        && f.line == f.bar
        && forall s :: s in f.line ==>
             |s.x| == |data| && forall i :: 0 <= i < |data| ==> YEARS in data[i] && s.x[i] == data[i][YEARS]
  {
    IndexFound(data, YEARS);
    var f := Graphs(selected, catalog, data);
    if f.Charts? {
      var xs := Index(data, YEARS).values;
      forall s | s in f.line
        ensures s.x == xs
      {
        if selected == ALL {
          var k :| 0 <= k < |f.line| && f.line[k] == s;
          AllSeriesAt(catalog, data, xs, k);
        }
      }
    }
  }

  /** The "All" branch: one series per catalog indicator, in catalog order,
      each plotting that indicator with gaps where a record lacks it. */
  lemma AllIndicatorsShape<V>(catalog: seq<string>, data: seq<Record<V>>)
    requires forall i :: 0 <= i < |data| ==> YEARS in data[i]
    ensures var f := Graphs(ALL, catalog, data);
      && f.Charts?
      && f.line == f.bar
      && |f.line| == |catalog|
      && forall k :: 0 <= k < |catalog| ==> Plots(f.line[k], catalog[k], data)
  {
    IndexFound(data, YEARS);
    PlotsAll(catalog, data, Index(data, YEARS).values);
  }

  /** The single-indicator branch: with the years all present, a record
      without the indicator raises KeyError for it, and otherwise there is
      exactly one series, named after the indicator, plotting its values. */
  lemma OneIndicatorShape<V>(selected: string, catalog: seq<string>, data: seq<Record<V>>)
    requires selected != ALL
    requires forall i :: 0 <= i < |data| ==> YEARS in data[i]
    ensures (exists i :: 0 <= i < |data| && selected !in data[i]) <==>
      Graphs(selected, catalog, data) == MissingField(selected)
    ensures (forall i :: 0 <= i < |data| ==> selected in data[i]) ==>
      var f := Graphs(selected, catalog, data);
      && f.Charts?
      && f.line == f.bar
      && |f.line| == 1
      && Plots(f.line[0], selected, data)
  {
    IndexFound(data, YEARS);
    IndexFound(data, selected);
    if Index(data, selected).Found? {
      PlotsStrict(selected, data, Index(data, YEARS).values, Index(data, selected).values);
    }
  }
}
