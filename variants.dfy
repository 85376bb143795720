/** How the two copies of the callback relate: on a well-formed answer they
    return the same thing, and each of their differences is pinned down by
    the inputs that show it. */
module Variants {
  import opened Dashboard
  import AppCallback
  import MainCallback

  /** With truthy selections and a non-empty record list in which every record
      has `Years`, both entry points post the same payload and return the same
      figures. */
  lemma VariantsAgree<V>(nClicks: nat, year: Option<Scalar>, indicator: Option<string>,
                         catalog: seq<string>, api: Payload -> Fetch<V>)
    requires !MainCallback.Falsy(year) && !MainCallback.FalsyName(indicator)
    requires var outcome := api(PayloadOf(year.value, indicator.value));
      && outcome.Fetched?
      && outcome.body.data.Some?
      && outcome.body.data.value != []
      && forall i :: 0 <= i < |outcome.body.data.value| ==> YEARS in outcome.body.data.value[i]
    ensures AppCallback.Decide(nClicks, year, indicator, catalog, api)
         == MainCallback.Decide(nClicks, year, indicator, catalog, api)
  {
    var data := api(PayloadOf(year.value, indicator.value)).body.data.value;
    IndexFound(data, YEARS);
  }

  /** An empty-string or zero selection is set for app.py, which posts it,
      and unset for main.py, which makes no request. */
  lemma FalsySelectionDiverges<V>(nClicks: nat, year: Option<Scalar>, indicator: Option<string>,
                                  catalog: seq<string>, api: Payload -> Fetch<V>)
    requires nClicks > 0 && year.Some? && indicator.Some?
    requires MainCallback.Falsy(year) || MainCallback.FalsyName(indicator)
    ensures AppCallback.Decide(nClicks, year, indicator, catalog, api).sent
         == Some(PayloadOf(year.value, indicator.value))
    ensures MainCallback.Decide(nClicks, year, indicator, catalog, api) == Reply(None, Empty)
  {
  }

  /** No records: main.py returns empty figures; app.py raises KeyError when
      the `data` key is absent and otherwise draws traces without points. */
  lemma NoRecordsDiverge<V>(selected: string, catalog: seq<string>, body: Response<V>)
    requires MainCallback.Records(body) == []
    ensures MainCallback.Respond(selected, catalog, Fetched(body)) == Empty
    ensures body.data.None? ==> AppCallback.Respond(selected, catalog, Fetched(body)) == MissingField(DATA_KEY)
    ensures body.data.Some? ==> AppCallback.Respond(selected, catalog, Fetched(body)).Charts?
  {
  }

  /** "All" with an empty catalog: app.py never reads the years and draws
      nothing; main.py reads them first and raises on a record without them. */
  lemma EmptyCatalogDiverges<V>(data: seq<Record<V>>)
    requires exists i :: 0 <= i < |data| && YEARS !in data[i]
    ensures AppCallback.Respond(ALL, [], Fetched(Response(Some(data)))) == Charts([], [])
    ensures MainCallback.Respond(ALL, [], Fetched(Response(Some(data)))) == MissingField(YEARS)
  {
    IndexFound(data, YEARS);
  }

  /** One indicator, with records lacking both it and `Years`: app.py reads the
      indicator first and raises for it, main.py reads the years first. */
  lemma KeyErrorOrderDiverges<V>(selected: string, catalog: seq<string>, data: seq<Record<V>>)
    requires selected != ALL
    requires exists i :: 0 <= i < |data| && selected !in data[i]
    requires exists i :: 0 <= i < |data| && YEARS !in data[i]
    ensures AppCallback.Respond(selected, catalog, Fetched(Response(Some(data)))) == MissingField(selected)
    ensures MainCallback.Respond(selected, catalog, Fetched(Response(Some(data)))) == MissingField(YEARS)
  {
    IndexFound(data, selected);
    IndexFound(data, YEARS);
  }

  /** Two indicators, the second missing from the second record: both entry
      points draw it with a gap there, and draw the first one in full. */
  lemma GapForMissingValue()
    ensures var data: seq<Record<real>> := [
        map["Years" := 2020.0, "GDP" := 1.0, "CPI" := 2.0],
        map["Years" := 2021.0, "GDP" := 1.1]
      ];
      var expected := [
        Series("GDP", [2020.0, 2021.0], [Some(1.0), Some(1.1)]),
        Series("CPI", [2020.0, 2021.0], [Some(2.0), None])
      ];
      && AppCallback.Respond(ALL, ["GDP", "CPI"], Fetched(Response(Some(data)))) == Charts(expected, expected)
      && MainCallback.Respond(ALL, ["GDP", "CPI"], Fetched(Response(Some(data)))) == Charts(expected, expected)
  {
    var data: seq<Record<real>> := [
      map["Years" := 2020.0, "GDP" := 1.0, "CPI" := 2.0],
      map["Years" := 2021.0, "GDP" := 1.1]
    ];
    var tail := data[1..];
    assert tail == [data[1]] && tail[1..] == [];
    assert YEARS in tail[0] && tail[0][YEARS] == 2021.0;
    assert Index(tail[1..], YEARS) == Found([]);
    var years := Index(tail, YEARS);
    assert years.Found? && years.values == [2021.0];
    years := Index(data, YEARS);
    assert years.Found? && years.values == [2020.0, 2021.0];
    assert Column(tail, "CPI") == [None];
    assert Column(data, "CPI") == [Some(2.0), None];
    assert Column(data, "GDP") == [Some(1.0), Some(1.1)];
    assert AllSeries(["GDP", "CPI"][1..], data, [2020.0, 2021.0])
        == [Series("CPI", [2020.0, 2021.0], [Some(2.0), None])];
  }
}
