/** Values shared by both entry points of the economic-indicator dashboard:
    dropdown selections, the request payload, the records the data API
    returns, and the chart series built from them. Indicator values are an
    opaque type parameter `V`: nothing in the dashboard computes on them. */
module Dashboard {

  datatype Option<T> = None | Some(value: T)

  /** A dropdown value. Indicator names are text; a year may be text or a number. */
  datatype Scalar = Text(s: string) | Number(n: int)

  /** The dropdown entry that means "do not filter on this field". */
  const ALL: string := "All"

  /** The key under which every record carries its year label. */
  const YEARS: string := "Years"

  /** Keys of the request payload and of the response body. */
  const YEAR_KEY: string := "year"
  const INDICATOR_KEY: string := "indicator"
  const DATA_KEY: string := "data"

  /** One record of the API's answer: key names mapped to values. */
  type Record<V> = map<string, V>

  /** The JSON object posted to the data API. */
  type Payload = map<string, Scalar>

  /** The decoded response body; `data` is None when the body has no `data` key. */
  datatype Response<V> = Response(data: Option<seq<Record<V>>>)

  /** What the POST produced: a request exception, or a decoded body. */
  datatype Fetch<V> = Failed | Fetched(body: Response<V>)

  /** One trace of a chart: its legend name and its parallel x and y values;
      a y entry is None where the record has no value (a gap in the chart). */
  datatype Series<V> = Series(name: string, x: seq<V>, y: seq<Option<V>>)

  /** What the callback hands back to the two graphs: a pair of empty figures,
      the line and bar traces, or a KeyError escaping the callback. */
  datatype Figures<V> =
    | Empty
    | Charts(line: seq<Series<V>>, bar: seq<Series<V>>)
    | MissingField(key: string)

  /** The payload posted (None when no request is made) and the figures. */
  datatype Reply<V> = Reply(sent: Option<Payload>, figures: Figures<V>)

  /** The result of indexing every record with `d[key]`. */
  datatype Lookup<T> = Found(values: T) | KeyError(key: string)

  // ---------------------------------------------------------------------
  // Selection to payload

  /** The payload for a (year, indicator) selection: each field is present
      exactly when its value is not the sentinel "All", holds that value
      unchanged, and no other field appears. */
  function PayloadOf(year: Scalar, indicator: string): (p: Payload)
    ensures YEAR_KEY in p <==> year != Text(ALL)
    ensures YEAR_KEY in p ==> p[YEAR_KEY] == year
    ensures INDICATOR_KEY in p <==> indicator != ALL
    ensures INDICATOR_KEY in p ==> p[INDICATOR_KEY] == Text(indicator)
    ensures p.Keys <= {YEAR_KEY, INDICATOR_KEY}
  {
    var withYear: Payload := if year != Text(ALL) then map[YEAR_KEY := year] else map[];
    if indicator != ALL then withYear[INDICATOR_KEY := Text(indicator)] else withYear
  }

  /** Builds the payload by inserting keys one at a time into an empty map. */
  method BuildPayload(year: Scalar, indicator: string) returns (payload: Payload)
    ensures payload == PayloadOf(year, indicator)
  {
    payload := map[];
    if year != Text(ALL) {
      payload := payload[YEAR_KEY := year];
    }
    if indicator != ALL {
      payload := payload[INDICATOR_KEY := Text(indicator)];
    }
  }

  // ---------------------------------------------------------------------
  // Records to columns

  /** The value a record holds under `key`, or None when it has none (`get`). */
  function Get<V>(d: Record<V>, key: string): Option<V>
  {
    if key in d then Some(d[key]) else None
  }

  /** The lenient column for `key`: one entry per record, in record order,
      None for a record without the key. */
  function Column<V>(data: seq<Record<V>>, key: string): (ys: seq<Option<V>>)
    ensures |ys| == |data|
  {
    if data == [] then [] else [Get(data[0], key)] + Column(data[1..], key)
  }

  lemma {:induction false} ColumnAt<V>(data: seq<Record<V>>, key: string, i: nat)
    requires i < |data|
    ensures Column(data, key)[i] == Get(data[i], key)
  {
    if i > 0 {
      ColumnAt(data[1..], key, i - 1);
    }
  }

  /** The strict column for `key` (subscripting every record): the values in
      record order, or the KeyError raised at the first record without `key`. */
  function Index<V>(data: seq<Record<V>>, key: string): (r: Lookup<seq<V>>)
    ensures r.Found? ==> |r.values| == |data|
    ensures r.KeyError? ==> r.key == key
  {
    if data == [] then Found([])
    else if key !in data[0] then KeyError(key)
    else match Index(data[1..], key)
      case Found(rest) => Found([data[0][key]] + rest)
      case KeyError(k) => KeyError(k)
  }

  /** Indexing succeeds exactly when every record has the key, and then
      yields each record's value, in record order. */
  lemma {:induction false} IndexFound<V>(data: seq<Record<V>>, key: string)
    ensures Index(data, key).Found? <==> forall i :: 0 <= i < |data| ==> key in data[i]
    ensures Index(data, key).Found? ==>
      forall i :: 0 <= i < |data| ==> key in data[i] && Index(data, key).values[i] == data[i][key]
  {
    if data != [] {
      IndexFound(data[1..], key);
      assert forall i :: 1 <= i < |data| ==> data[i] == data[1..][i - 1];
    }
  }

  /** Every value wrapped as present: a strict column used as y values. */
  function Present<V>(vs: seq<V>): seq<Option<V>>
  {
    seq(|vs|, i requires 0 <= i < |vs| => Some(vs[i]))
  }

  /** Where the strict read succeeds, its values, as y values, are exactly
      what the lenient read gives: the two differ only in raising or not. */
  lemma {:induction false} StrictMatchesLenient<V>(data: seq<Record<V>>, key: string)
    requires forall i :: 0 <= i < |data| ==> key in data[i]
    ensures Index(data, key).Found?
    ensures Present(Index(data, key).values) == Column(data, key)
  {
    IndexFound(data, key);
    forall i | 0 <= i < |data|
      ensures Present(Index(data, key).values)[i] == Column(data, key)[i]
    {
      ColumnAt(data, key, i);
    }
  }

  // ---------------------------------------------------------------------
  // Columns to series

  /** One series per catalog indicator, in catalog order, each with the
      lenient column of that indicator against the shared x values `xs`. */
  function AllSeries<V>(catalog: seq<string>, data: seq<Record<V>>, xs: seq<V>): (s: seq<Series<V>>)
    ensures |s| == |catalog|
  {
    if catalog == [] then []
    else [Series(catalog[0], xs, Column(data, catalog[0]))] + AllSeries(catalog[1..], data, xs)
  }

  lemma {:induction false} AllSeriesAt<V>(catalog: seq<string>, data: seq<Record<V>>, xs: seq<V>, k: nat)
    requires k < |catalog|
    ensures AllSeries(catalog, data, xs)[k] == Series(catalog[k], xs, Column(data, catalog[k]))
  {
    if k > 0 {
      AllSeriesAt(catalog[1..], data, xs, k - 1);
    }
  }

  /** Series `s` is named `name` and plots, record by record in record order,
      each record's `Years` label against its `name` value, None where the
      record has no such value. */
  ghost predicate Plots<V>(s: Series<V>, name: string, data: seq<Record<V>>)
  {
    && s.name == name
    && |s.x| == |data|
    && |s.y| == |data|
    && forall i :: 0 <= i < |data| ==>
         YEARS in data[i] && s.x[i] == data[i][YEARS] && s.y[i] == Get(data[i], name)
  }

  /** A lenient column against the records' years plots that column. */
  lemma PlotsColumn<V>(name: string, data: seq<Record<V>>, xs: seq<V>)
    requires Index(data, YEARS) == Found(xs)
    ensures Plots(Series(name, xs, Column(data, name)), name, data)
  {
    IndexFound(data, YEARS);
    forall i | 0 <= i < |data| ensures Column(data, name)[i] == Get(data[i], name) {
      ColumnAt(data, name, i);
    }
  }

  /** A strict column against the records' years plots that column. */
  lemma PlotsStrict<V>(name: string, data: seq<Record<V>>, xs: seq<V>, ys: seq<V>)
    requires Index(data, YEARS) == Found(xs)
    requires Index(data, name) == Found(ys)
    ensures Plots(Series(name, xs, Present(ys)), name, data)
  {
    IndexFound(data, YEARS);
    IndexFound(data, name);
  }

  /** Each series of the "All" branch plots its catalog indicator. */
  lemma {:induction false} PlotsAll<V>(catalog: seq<string>, data: seq<Record<V>>, xs: seq<V>)
    requires Index(data, YEARS) == Found(xs)
    ensures forall k :: 0 <= k < |catalog| ==> Plots(AllSeries(catalog, data, xs)[k], catalog[k], data)
  {
    forall k | 0 <= k < |catalog|
      ensures Plots(AllSeries(catalog, data, xs)[k], catalog[k], data)
    {
      AllSeriesAt(catalog, data, xs, k);
      PlotsColumn(catalog[k], data, xs);
    }
  }
}
