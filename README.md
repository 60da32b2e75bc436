# explanationviz: the map view's state machine and the backend's route decisions

explanationviz is a small web application for exploring New York taxi data
on a map. It has two parts. An Express backend answers a few GET routes by
starting Python scripts and relaying what they print. A React view,
`DataMap`, steps the user through three stages: choose a dataset, choose
attributes, then look at a heatmap (cartogram).

This project models the two pieces of that code that carry logic.

- **The `DataMap` view** (`datamap.dfy`, module `DataMapView`). A class
  `DataMap` holds the component's state as one record, `ViewState`. Each
  handler is a method that applies the handler's `setState` calls in order,
  as record updates. The handlers are `componentDidMount`, `getDataSets`,
  `loadDataSet`, `loadHeatmap` and `changeHoverObject`. The two fetches are
  each issued by one handler and completed by a separate method
  (`DataSetsLoaded`, `HeatmapLoaded`) that takes the reply or the error.
  `Render` is a function from the state to the ordered side panels and the
  ordered outer views, with their React keys.
- **The backend's decisions** (`server.dfy`, module `Server`). Each route is
  a function that returns a `Plan`: answer 404, start a command with a
  given argument vector and content type, or send nothing. The catalog
  (`catalog.dfy`) is the server's constant dataset list. `StdoutRelay` is
  the per-request `data += d` accumulator with its `close` handler, and
  `Relay` runs it over a child's output events.

Three helper modules are shared. `Lookup` holds `Option` and lodash's
first-match `_.find`. `Decimal` holds JavaScript's integer `toString` and
`parseInt` on canonical text; `parseInt` is proved to read back what
`toString` writes, and on canonical text `toString` writes back what
`parseInt` reads. `Url` holds the query string the view writes and the
splitting at `?`, `&` and `=` that reads it back.

Some behaviour is reproduced exactly as the code has it, even where a
reader might expect otherwise:

- `loadDataSet` with an id that no dataset has still moves to attribute
  selection and records the id. It shows two empty attribute lists and only
  logs the miss.
- `loadHeatmap` looks up the name of the *spatial* attribute among the
  dataset's *value* (non-spatial) attributes. For dataset 301 with
  attributes (5, 2) it stores "Trip Distance", not "Dropoff Location".
- Mode 3 (`MODE_HISTOGRAM_VIEW`) is declared but never assigned. No handler
  assigns mode 1 (`MODE_DATASET_SELECT`), so once the view leaves it, it
  never returns.
- Only `/cartogram.json` and the `filtercartogram.json` handler answer 404.
  `/histogram.svg` and `/explanations.json` never look the dataset up.
  `/histogram.svg` always uses the name `yellowdata`.
- `componentDidMount` clears `loading` right after issuing the dataset
  request, before the reply arrives.

## Model

| member | source | states |
|---|---|---|
| Lookup.Find | server.js:76 | `_.find`: the result is absent exactly when no element satisfies the predicate; otherwise it satisfies it and is the first element that does |
| Decimal.IntToDecimal | server.js:111 | integer text is never empty, starts with `-` exactly for negative integers, and is canonical: digits with no leading zero except `0` itself, and never `-0` |
| Decimal.DecimalOfParseInt | server.js:72-74 | on canonical integer text, writing back the integer `parseInt` reads gives the same text |
| Decimal.ParseIntOfDecimal | server.js:72-74 | `parseInt` reads back the text `toString` writes: the result is well-formed integer text and parses to the same integer |
| Decimal.IntToDecimalInjective | server.js:111 | two integers have the same text exactly when they are equal |
| Catalog.Datasets | server.js:6-24 | the catalog has one dataset, id 301, name `yellowdata`; spatial ids are [1, 2] and value ids [0..5] in order; ids are unique within each list |
| Catalog.DatasetById | server.js:76 | dataset lookup by id: absent exactly when no dataset has the id; otherwise the first dataset in the list with the id |
| Catalog.NonSpatialById | src/datamap.js:100-108 | value-attribute lookup by id: absent exactly when no attribute has the id; otherwise the first attribute in the list with the id |
| Catalog.CatalogLookup | server.js:6-24 | the catalog answers exactly the id 301, with its single dataset |
| Server.DataName | server.js:83-86 | the data name is the dataset name when spatialid <= 1; otherwise it is the name followed by canonical decimal digits (no leading zero) that read back as spatialid |
| Server.DataNameCollisions | server.js:83-86 | two spatial ids give the same data name exactly when they are equal or both at most 1 |
| Server.DropoffDataName | server.js:83-86 | spatial id 2 gives `yellowdata2`, spatial id 1 gives `yellowdata` |
| Server.Cartogram | server.js:71-113 | 404 exactly when no catalogued dataset has the id, and then nothing is spawned; otherwise `python3` runs with six arguments, as JSON; the aggregates and index paths carry the same data name; the fifth argument reads back as attributeid |
| Server.CartogramForYellowData | server.js:89-113 | for dataset 301 the argument vector is exactly the script, the aggregates and index paths of the data name, `4`, the attribute id in decimal and the neighbourhood file |
| Server.Histogram | server.js:41-53 | always spawns `python3`, as SVG, with exactly `datapoly1d.py`, the fixed `aggregates/data` file, the header file of `yellowdata` and `1`; there is no 404 branch |
| Server.HistogramIgnoresDataset | server.js:42-53 | every datasetid, catalogued or not, gives the same command |
| Server.Explanations | server.js:127-142 | always spawns `python3`, as JSON, with exactly `calculate_salient_explanation.py`, the attributeid text unchanged and the fixed `index/data` file; there is no 404 branch |
| Server.ExplanationsIgnoresDataset | server.js:128-142 | the command does not depend on datasetid |
| Server.FilterCartogram | server.js:157-186 | 404 exactly for an unknown dataset; a known dataset gets no response at all |
| Server.ConcatAppend | server.js:57-59 | joining two runs of chunks one after the other equals joining them all |
| Server.ChunkInPlace | server.js:115-117 | each stdout chunk sits in the body right after the chunks that arrived before it |
| Server.StdoutRelay.constructor | server.js:96 | the body starts empty and nothing has been sent |
| Server.StdoutRelay.OnStdout | server.js:115-117 | a stdout chunk is appended to the body; nothing is sent |
| Server.StdoutRelay.OnClose | server.js:121-124 | on close, the body gathered so far is sent, once |
| Server.Relay | server.js:144-153 | over any run of stdout and stderr events then close, exactly one response is sent, and its body is the stdout chunks joined in arrival order; stderr chunks never reach it |
| DataMapView.AttributeLists | src/datamap.js:67-76 | the lists shown for an id are those of the first dataset with that id, in the same order; with no such dataset, both are empty |
| DataMapView.NonSpatialName | src/datamap.js:96-109 | a name is found only when a dataset is selected and listed; it is then the name of the first value attribute carrying the id, in the first listed dataset with the selected id, and it is absent exactly when that dataset has no such attribute |
| Url.ParseQueryString | src/datamap.js:121 | for a non-empty list of parameters, splitting the written query string at `&` and then at the first `=` gives back the parameters in order, when keys hold neither `&` nor `=` and values hold no `&` |
| Url.UrlQueryOf | src/datamap.js:121 | the text after the first `?` of `base?query` is `query` when the base holds no `?` |
| DataMapView.HeatmapUrlRoundTrip | src/datamap.js:121 | parsing the query of the URL `loadHeatmap` requests gives back exactly the parameters datasetid, spatialid and attributeid, in that order |
| DataMapView.HeatmapRequestRoundTrip | src/datamap.js:121 | the parameter values are the ids in decimal; with a dataset selected the server reads back the same three ids and decides as if called with them; with none selected the id text is not a number |
| DataMapView.Render | src/datamap.js:152-194 | at most one side panel: DataSelector in mode 1, AttributeSelector in mode 2, CartoSidepanel in mode 4, none otherwise; HistogramView, carrying the current datasetid, is an outer view exactly in mode 2; Loading is the last outer view exactly when loading; keys count 1, 2, … in each list |
| DataMapView.DataMap.constructor | src/datamap.js:13-28 | initial state: mode 1, loading, no datasets, and every id, payload, hover object and attribute name null; attribute lists not set |
| DataMapView.DataMap.ComponentDidMount | src/datamap.js:30-36 | issues the dataset request, then leaves loading false while it is in flight; nothing else changes, so the state invariant is kept |
| DataMapView.DataMap.GetDataSets | src/datamap.js:38-44 | sets loading and issues the request to `/datasets.json`; nothing else changes, so the state invariant is kept |
| DataMapView.DataMap.DataSetsLoaded | src/datamap.js:44-55 | loading becomes false on success and on error; on success the dataset list is replaced by the reply, on error it is kept |
| DataMapView.DataMap.LoadDataSet | src/datamap.js:58-90 | always ends in mode 2 with datasetid = id and loading false, and with the attribute lists of the first matching dataset (empty when none matches); nothing else changes; from mode 1 the state invariant is kept |
| DataMapView.DataMap.LoadHeatmap | src/datamap.js:93-121 | from any mode: mode 4 and loading; both names resolved against the value attributes of the current dataset; the request URL carries the current datasetid, spatialid and attributeid; from mode 2 the state invariant is kept |
| DataMapView.DataMap.HeatmapLoaded | src/datamap.js:121-136 | loading becomes false on success and on error; on success data is the reply, on error it is kept; the mode does not change |
| DataMapView.DataMap.ChangeHoverObject | src/datamap.js:140-147 | only the hover object changes; a non-null object requests the pointer cursor |
| DataMapView.YellowDataAttributes | src/datamap.js:67-84 | choosing 301 shows value ids 0–5 and spatial ids 1–2 in order; choosing 999 shows two empty lists |
| DataMapView.YellowDataHeatmapNames | src/datamap.js:99-108 | for dataset 301, attribute 5 resolves to "Tip Percentage" and spatial attribute 2 to "Trip Distance", although spatial attribute 2 is "Dropoff Location" |

`DataMap.Valid()` states that the mode is always 1, 2 or 4. Every handler
keeps it, and every handler ensures the new mode is 1 only if the old one
was. `Consistent` is the state invariant the panels keep:

- outside mode 1, a dataset id and both attribute lists are set;
- a loaded heatmap, or one in flight, exists only in mode 4.

Each handler keeps `Consistent` when it is called while its panel is shown.
`YellowDataSession` and `UnknownDatasetSession` are client methods that walk
through a session with the catalog.

## Left out

- Rendering: JSX, MapGL, DeckGLOverlay, the Mapbox style and token, and the
  page layout. `document.body.style.cursor` is only a ghost flag,
  `cursorPointer`.
- The base `Map` component (`src/map.js`): `super.componentDidMount()`, the
  viewport and `_onChangeViewport`. `src/map.js` is not part of this model.
- I/O: d3-request networking, Express routing and CORS, `app.listen`, the
  `/` route, `child_process.spawn`, and every `console.log`, including the
  stderr logging. A fetch is a URL returned by the handler that issues it,
  plus a completion method. A route is the `Plan` it returns.
- The Python scripts (cartogram, histogram, salient explanations). They are
  external and their output is not interpreted.
- Server.Relay: a stdout chunk is a Node `Buffer`, and `data += d` decodes
  each chunk on its own as UTF-8. A multi-byte character split across two
  chunks therefore becomes U+FFFD in the body. The model takes chunks as
  already-decoded strings, so it does not capture that loss.
- Url.ParseQuery: Express's query parser also percent-decodes values and
  builds arrays for repeated keys. Neither is modelled; the texts the view
  sends contain no reserved characters.
- Url.ParseQueryString: the round trip is stated for non-empty parameter
  lists only. An empty list writes the empty text, which reads back as one
  parameter with an empty key and value; the view always sends three.
- The JSON serialisation of `/datasets.json` and the parsing on the client.
  A successful dataset reply is a list of `Dataset` values.
- Server.Cartogram: takes the three query values as integers. It does not
  model `parseInt` on arbitrary text (NaN, trailing characters). It also
  does not model `toString` of integers beyond 2^53 or in exponent form.
- Server.Histogram and Server.Explanations: take the query values as
  strings. A missing query parameter (`undefined`) is not modelled.
- Server.FilterCartogram: the `res.send('')` after `res.sendStatus(404)` is
  not modelled. Express refuses it because the status response has already
  been sent. The route is registered as `filtercartogram.json`, without a
  leading `/`, so it cannot match a request path. The function states what
  the handler would do if it were reached.
- React `setState` batching and asynchrony. The `setState` calls of one
  handler are applied in order, so the intermediate `loading: true` in
  `loadDataSet` is modelled but cannot be seen by `Render`.
- Races between overlapping fetches. The in-flight counts are ghost fields.
  A completion requires an outstanding request of its kind. The order in
  which replies arrive is chosen by whoever calls the completion methods.
- DataMapView.DataMap.LoadHeatmap: keeps `Consistent` only when called in
  mode 2, where the AttributeSelector that calls it is shown. The code
  itself accepts a call in any mode.
- `src/App.js`: static component wiring, the unused `STATE_*` constants and
  the fetch of `data/taxistats.json`. There is no logic in it to model.
