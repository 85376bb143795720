# Economic-indicator dashboard: the `update_graphs` callback

The dashboard has a year dropdown, an indicator dropdown and a Submit button.
A click runs the `update_graphs` callback. The callback posts the selection to
a data API and turns the returned records into line-chart traces and
bar-chart traces. The repository has two entry points, `app.py` and
`main.py`. Each has its own copy of the callback, and the two copies differ
at the edges. This project models both copies, side by side, in Dafny:

- `dashboard.dfy` (module `Dashboard`) holds what both copies share:
  - dropdown values (`Scalar`: a year may be text or a number);
  - API records (`map<string, V>`, where the indicator values `V` are opaque);
  - the payload, built by inserting keys into an empty map (`BuildPayload`) and specified by `PayloadOf`;
  - the two ways a column is read from the records. `Column` is `d.get(key)`: a missing value becomes `None`. `Index` is `d[key]`: a missing key raises KeyError;
  - the per-indicator series comprehension (`AllSeries`);
  - `Plots`, the predicate saying that a trace shows one indicator against the records' `Years`, in record order.
- `app_callback.dfy` (module `AppCallback`) models `app.py`. `Decide` is the callback as a function of:
  - the click count;
  - the two selections;
  - the indicator catalog;
  - `api`, the function that answers the POST.

  `UpdateGraphs` is the same callback written step by step. It builds the payload in place and runs the `for` loop that appends one line trace and one bar trace per indicator (`FillAllSeries`). It is proved equal to `Decide`.
- `main_callback.dfy` (module `MainCallback`) models `main.py` in the same way. Its traces come from comprehensions, so the shaping (`Graphs`) is a function. `UpdateGraphs` builds the payload in place and is proved equal to `Decide`.
- `variants.dfy` (module `Variants`) relates the two copies. On a well-formed answer they agree (`VariantsAgree`). Each of the next four lemmas names inputs on which the copies differ. The last, `GapForMissingValue`, is a worked example on which they agree.

Every reply records the payload that was posted (`sent`, `None` when no
request is made) and the figures. The figures are one of:
- `Empty`: a pair of empty figures;
- `Charts(line, bar)`: the traces, each reduced to its name, x values and y values;
- `MissingField(key)`: a `KeyError` for `key` escapes the callback.

The differences between the copies:
- **Unset selection.** `app.py` tests `is None`. `main.py` tests falsiness, so an empty string or a zero year also counts as unset.
- **No `data` key in the answer.** `app.py` indexes `['data']`. The KeyError it raises is not a request exception, so it escapes the callback. `main.py` uses `.get('data', [])`.
- **No records.** `main.py` returns empty figures. `app.py` draws traces that have no points.
- **Where the years are read.** `main.py` reads them once, before either branch. `app.py` reads them inside the loop, so with an empty catalog it never reads them. In the single-indicator branch, `app.py` reads the indicator before the years.

Two facts about the code are easy to miss:
- In the single-indicator branch neither copy substitutes `None` for a missing indicator. Both subscript `d[selected_indicator]` (app.py:112, main.py:105), and both raise KeyError.
- Only `main.py` returns empty figures for an empty record list (main.py:88-90).

## Model

| member | source | states |
|---|---|---|
| `Dashboard.PayloadOf` | app.py:77-81 | The payload has a `year` key exactly when the year is not "All" and an `indicator` key exactly when the indicator is not "All". Each key holds the selected value unchanged, and there are no other keys. |
| `Dashboard.BuildPayload` | main.py:70-74 | Inserting the keys one by one into an empty dict gives exactly `PayloadOf`. The code is the same as app.py:77-81. |
| `Dashboard.Column` | app.py:103 | The lenient column of a key (read with `get`) has one entry per record. |
| `Dashboard.ColumnAt` | main.py:97 | Entry i of the lenient column is record i's value for the key, or `None` when record i lacks the key. |
| `Dashboard.Index` | app.py:112 | The strict column of a key (read by subscripting) has one value per record, or it is a KeyError for that key itself. |
| `Dashboard.IndexFound` | main.py:105 | The strict column succeeds exactly when every record has the key. When it succeeds, entry i is record i's value, in record order. |
| `Dashboard.AllSeries` | main.py:96-103 | The per-indicator comprehension yields one series per catalog entry. |
| `Dashboard.AllSeriesAt` | main.py:96-98 | Series k is named `catalog[k]`, uses the shared x values and takes its y values from the lenient column for `catalog[k]`. |
| `Dashboard.PlotsColumn` | app.py:103-104 | A trace built from the lenient column of an indicator and the `Years` column shows, for each record in order, its year and its value, or a gap where the value is missing. |
| `Dashboard.PlotsStrict` | app.py:112-113 | A trace built from the strict column of an indicator and the `Years` column shows, for each record in order, its year and its value. |
| `Dashboard.StrictMatchesLenient` | main.py:105 | When every record has the key, the strict column's values, as y values, are exactly the lenient column's: the two reads differ only in raising instead of leaving a gap. |
| `Dashboard.PlotsAll` | main.py:100-103 | Every series of the "All" comprehension shows its own catalog indicator in that way. |
| `AppCallback.Decide` | app.py:67-74 | A request is made exactly when there was a click and neither selection is `None`. Otherwise the result is a pair of empty figures. The posted payload is `PayloadOf` of the selection. Line and bar traces are always equal. |
| `AppCallback.Respond` | app.py:88-99 | The figures are empty exactly when the request failed. A body without `data` raises KeyError for `data`. |
| `AppCallback.AllCharts` | app.py:99-110 | The "All" branch never gives empty figures. When it draws, line and bar are equal and there is one trace per catalog indicator. It can only raise for `Years`. |
| `AppCallback.OneChart` | app.py:111-119 | The single-indicator branch never gives empty figures. When it draws, there is one trace, named after the indicator, and it is the same for line and bar. It can only raise for the indicator or for `Years`. |
| `AppCallback.FillAllSeries` | app.py:100-110 | The loop that appends one line trace and one bar trace per indicator gives exactly `AllCharts`. That includes the KeyError for `Years` raised on the first pass. |
| `AppCallback.UpdateGraphs` | app.py:67-155 | The step-by-step callback (guards, in-place payload, POST, branch) returns exactly `Decide`. |
| `AppCallback.AllChartsShape` | app.py:99-110 | With an empty catalog the result is no traces. Otherwise a record without `Years` raises KeyError for it. If every record has `Years`, trace k of both charts plots `catalog[k]`, with `None` where a record lacks it. |
| `AppCallback.OneChartShape` | app.py:111-119 | A record without the selected indicator raises KeyError for it. If the indicator is everywhere, a record without `Years` raises for `Years`. If both are everywhere, there is exactly one trace, named after the indicator, plotting its values. |
| `AppCallback.EmptyDataGivesEmptyTraces` | app.py:93-113 | An empty record list still gives traces: one per catalog indicator, or one for the selected indicator. Each trace has no points. |
| `MainCallback.Decide` | main.py:62-67 | A request is made exactly when there was a click and neither selection is falsy (`None`, `""`, or a zero year). Otherwise the result is a pair of empty figures. The posted payload is `PayloadOf`. Line and bar are always equal. |
| `MainCallback.Respond` | main.py:79-90 | The figures are empty exactly when the request failed, the body has no `data`, or `data` is empty. |
| `MainCallback.Graphs` | main.py:92-107 | Shaping never gives empty figures. When it draws, line equals bar. There is one trace per catalog indicator for "All", or one trace named after the indicator otherwise. It raises only for `Years` or the selected indicator. |
| `MainCallback.UpdateGraphs` | main.py:62-136 | The step-by-step callback (guards, in-place payload, POST, empty check, shaping) returns exactly `Decide`. |
| `MainCallback.SharedYears` | main.py:93 | A record without `Years` raises KeyError for it, whatever the selection and the catalog. Otherwise every line and bar trace has as x values the records' `Years`, in record order. |
| `MainCallback.AllIndicatorsShape` | main.py:95-103 | For "All", trace k of both charts plots `catalog[k]`, with `None` where a record lacks it, and there are exactly `len(catalog)` traces. |
| `MainCallback.OneIndicatorShape` | main.py:104-107 | For one indicator, it raises KeyError for that indicator exactly when some record lacks it. Otherwise there is exactly one trace, named after it, plotting its values. |
| `Variants.VariantsAgree` | main.py:62-107 | The two copies return the same reply when three conditions hold: the selections are truthy, the answer is a non-empty record list, and every record has `Years`. |
| `Variants.FalsySelectionDiverges` | main.py:65 | For an empty-string or zero selection, app.py posts it as a payload and main.py makes no request. |
| `Variants.NoRecordsDiverge` | main.py:82-90 | With no records, main.py gives empty figures. app.py raises for a missing `data` key, and otherwise draws traces. |
| `Variants.EmptyCatalogDiverges` | main.py:93 | For "All" with an empty catalog and a record without `Years`, app.py draws nothing and main.py raises KeyError for `Years`. |
| `Variants.KeyErrorOrderDiverges` | app.py:112-113 | Take records that lack both the selected indicator and `Years`. app.py raises for the indicator, and main.py raises for `Years`. |
| `Variants.GapForMissingValue` | app.py:103 | Both copies draw the two-record, two-indicator example identically. The value missing from the second record is a gap (`None`), not a zero. |

## Left out

- The Dash application object, the page layout, the dropdowns, the button, the graph containers and every style constant (app.py:9-56, main.py:9-52). They declare the UI and have no behaviour.
- The HTTP request, `raise_for_status`, `response.json()`, the API URL and the headers (app.py:84-96, main.py:76-85). The request is the parameter `api`, a function from payload to outcome. Any request exception, including a body that is not JSON, is the outcome `Failed`.
- The plotly figure, layout and trace objects, including titles, colours and `mode` (app.py:105-151, main.py:96-131). A trace is kept as its name, x values and y values. The line and bar traces differ only in styling, which is not modelled.
- The indicator catalog and the year catalog from the `Components` package. The `Components` package is not part of this model. The indicator catalog is a parameter. The year catalog only fills the dropdown, so the year selection is taken as given.
- The debugging `print` calls and `app.run_server` (app.py:69, 73, 82, 95, 158-160; main.py:66, 84, 89, 139-140).
- Arithmetic on indicator values. The values are floats in practice, but nothing computes on them, so they are an opaque type parameter.
- Response bodies that are not an object holding a list of objects, such as `data` set to JSON `null` or records that are not objects. Only an absent `data` key is modelled. In app.py, iterating a `null` `data` raises TypeError, but with "All" and an empty catalog the loop never reads `data` and the result is two figures without traces. A record that is not an object makes app.py raise AttributeError in the "All" branch (`get`) and TypeError in the single-indicator branch (subscript). main.py treats `null` as no records and raises TypeError on a record that is not an object.
- An explicit JSON `null` stored under a key. Python reads it as `None` with both `get` and subscripting, the same gap as a missing key. The model treats it as an ordinary value of `V`, so only a missing key gives `None`.
- Year values that are floats or booleans. A year is text or an integer.
- An exception other than KeyError escaping the callback.
- How Dash reacts to an exception that escapes the callback. Dash leaves the graphs as they were. The model stops at `MissingField`.
- `n_clicks` being `None`. The layout starts it at 0, so it is a natural number here.
