/**
 The `DataMap` map view: one state record, changed by the handlers the
 panels call (choose a dataset, choose attributes, hover a polygon) and by
 the completions of the two fetches it issues (the dataset list and the
 cartogram). `Render` picks the side panels and the outer views from the
 state. Each `setState` call is one record update, applied in order; a
 fetch is issued by one handler and completed by a separate step.
 */
module DataMapView {
  import opened Lookup
  import opened Decimal
  import opened Catalog
  import opened Url
  import Server

  const MODE_DATASET_SELECT := 1
  const MODE_ATTRIBUTE_SELECT := 2
  const MODE_HISTOGRAM_VIEW := 3
  const MODE_HEATMAP_VIEW := 4

  const DATASETS_URL := "http://localhost:8080/datasets.json"
  const CARTOGRAM_URL := "http://localhost:8080/cartogram.json"

  /** The parsed cartogram response; its shape belongs to the cartogram script. */
  type Payload = string

  /** The polygon under the pointer, as the overlay reports it. */
  type Feature = int

  /** How a fetch ends: the parsed response, or an error that is only logged. */
  datatype Reply<T> = Ok(resp: T) | Err(error: string)

  /**
   The component's state. `None` stands for `null`, and for the attribute
   lists also for "not set yet": the constructor leaves them undefined.
   */
  datatype ViewState = ViewState(
    mode: int,
    loading: bool,
    datasets: seq<Dataset>,
    datasetid: Option<int>,
    data: Option<Payload>,
    hoverObject: Option<Feature>,
    nonSpatialAttrs: Option<seq<NonSpatialAttribute>>,
    spatialAttrs: Option<seq<SpatialAttribute>>,
    nonspatialattribute: Option<string>,
    spatialattribute: Option<string>)

  // ---------------------------------------------------------------------------
  // Lookups the handlers make

  /**
   The attribute lists `loadDataSet` shows for `id`: those of the first
   listed dataset with that id, or two empty lists when there is none.
   */
  function AttributeLists(datasets: seq<Dataset>, id: int): (lists: (seq<NonSpatialAttribute>, seq<SpatialAttribute>))
    ensures (forall j :: 0 <= j < |datasets| ==> datasets[j].id != id) ==> lists == ([], [])
    ensures (exists j :: 0 <= j < |datasets| && datasets[j].id == id) ==>
              exists j :: 0 <= j < |datasets| && datasets[j].id == id &&
                (forall k :: 0 <= k < j ==> datasets[k].id != id) &&
                lists == (datasets[j].nonspatial, datasets[j].spatial)
  {
    var result := Find(datasets, (dataset: Dataset) => dataset.id == id);
    if result.Some? then (result.value.nonspatial, result.value.spatial) else ([], [])
  }

  /**
   The name `loadHeatmap` finds for attribute `id`: it looks `id` up among
   the value (non-spatial) attributes of the selected dataset. It is used
   for the spatial attribute too, so a spatial id is resolved against the
   value attributes.
   */
  function NonSpatialName(datasets: seq<Dataset>, datasetid: Option<int>, id: int): (r: Option<string>)
    ensures datasetid.None? || DatasetById(datasets, datasetid.value).None? ==> r.None?
    ensures datasetid.Some? && DatasetById(datasets, datasetid.value).Some? ==>
              var attrs := DatasetById(datasets, datasetid.value).value.nonspatial;
              (r.None? <==> forall j :: 0 <= j < |attrs| ==> attrs[j].id != id) &&
              (r.Some? ==> exists j :: 0 <= j < |attrs| && attrs[j].id == id && attrs[j].name == r.value &&
                             forall k :: 0 <= k < j ==> attrs[k].id != id)
  {
    if datasetid.None? then None
    else
      match DatasetById(datasets, datasetid.value)
      case None => None
      case Some(dataset) =>
        match NonSpatialById(dataset.nonspatial, id)
        case None => None
        case Some(attribute) => Some(attribute.name)
  }

  // ---------------------------------------------------------------------------
  // The cartogram request

  /** The text a template literal gives an optional id: its digits, or `null`. */
  function IdText(id: Option<int>): string {
    if id.Some? then IntToDecimal(id.value) else "null"
  }

  /** The query parameters of the cartogram request, in the order the URL lists them. */
  function HeatmapQuery(datasetid: Option<int>, spatialid: int, attributeid: int): seq<(string, string)> {
    [("datasetid", IdText(datasetid)), ("spatialid", IntToDecimal(spatialid)), ("attributeid", IntToDecimal(attributeid))]
  }

  function HeatmapUrl(datasetid: Option<int>, spatialid: int, attributeid: int): string {
    CARTOGRAM_URL + "?" + QueryString(HeatmapQuery(datasetid, spatialid, attributeid))
  }

  /** The server reads back from the request URL exactly the parameters the view wrote, in order. */
  lemma HeatmapUrlRoundTrip(datasetid: Option<int>, spatialid: int, attributeid: int)
    ensures ParseQuery(UrlQuery(HeatmapUrl(datasetid, spatialid, attributeid))) == HeatmapQuery(datasetid, spatialid, attributeid)
  {
    var q := HeatmapQuery(datasetid, spatialid, attributeid);
    assert Writable(q);
    ParseQueryString(q);
    UrlQueryOf(CARTOGRAM_URL, QueryString(q));
  }

  /**
   The parameter values of the request are the three ids in decimal: when a
   dataset is selected, the server reads back the ids and decides as if
   called with them directly. (With no dataset selected the view sends the
   text `null`, which is not a number.)
   */
  lemma HeatmapRequestRoundTrip(datasetid: Option<int>, spatialid: int, attributeid: int)
    ensures var q := HeatmapQuery(datasetid, spatialid, attributeid);
            q[0].0 == "datasetid" && q[1].0 == "spatialid" && q[2].0 == "attributeid" &&
            IsIntText(q[1].1) && ParseInt(q[1].1) == spatialid &&
            IsIntText(q[2].1) && ParseInt(q[2].1) == attributeid &&
            (IsIntText(q[0].1) <==> datasetid.Some?) &&
            (datasetid.Some? ==>
               ParseInt(q[0].1) == datasetid.value &&
               Server.Cartogram(ParseInt(q[0].1), ParseInt(q[2].1), ParseInt(q[1].1)) ==
               Server.Cartogram(datasetid.value, attributeid, spatialid))
  {
    ParseIntOfDecimal(spatialid);
    ParseIntOfDecimal(attributeid);
    if datasetid.Some? {
      ParseIntOfDecimal(datasetid.value);
    } else {
      assert !IsDigit('n');
    }
  }

  // ---------------------------------------------------------------------------
  // Render: side panels and outer views

  datatype PanelKind =
    | DataSelector(datasets: seq<Dataset>)
    | AttributeSelector(nonspatialattributes: Option<seq<NonSpatialAttribute>>, spatialattributes: Option<seq<SpatialAttribute>>)
    | CartoSidepanel(hovered: Option<Feature>, attribute: Option<string>)
    | HistogramView(datasetid: Option<int>)
    | Loading

  datatype Panel = Panel(key: int, kind: PanelKind)

  /** The drawer's panels (`additionalViews`) and the views over the map (`outerViews`). */
  datatype Views = Views(side: seq<Panel>, outer: seq<Panel>)

  /** `views.push(<Kind key={++counter}/>)`: the counter always equals the length before the push. */
  function Push(views: seq<Panel>, kind: PanelKind): seq<Panel> {
    views + [Panel(|views| + 1, kind)]
  }

  predicate KeyedInOrder(views: seq<Panel>) {
    forall i :: 0 <= i < |views| ==> views[i].key == i + 1
  }

  function Render(s: ViewState): (v: Views)
    ensures |v.side| <= 1
    ensures s.mode == MODE_DATASET_SELECT <==> v.side == [Panel(1, DataSelector(s.datasets))]
    ensures s.mode == MODE_ATTRIBUTE_SELECT <==> v.side == [Panel(1, AttributeSelector(s.nonSpatialAttrs, s.spatialAttrs))]
    ensures s.mode == MODE_HEATMAP_VIEW <==> v.side == [Panel(1, CartoSidepanel(s.hoverObject, s.nonspatialattribute))]
    ensures v.side == [] <==> s.mode !in {MODE_DATASET_SELECT, MODE_ATTRIBUTE_SELECT, MODE_HEATMAP_VIEW}
    ensures (exists i :: 0 <= i < |v.outer| && v.outer[i].kind.HistogramView?) <==> s.mode == MODE_ATTRIBUTE_SELECT
    ensures s.mode == MODE_ATTRIBUTE_SELECT ==> v.outer[0] == Panel(1, HistogramView(s.datasetid))
    ensures s.loading <==> |v.outer| > 0 && v.outer[|v.outer| - 1].kind == Loading
    ensures |v.outer| == (if s.mode == MODE_ATTRIBUTE_SELECT then 1 else 0) + (if s.loading then 1 else 0)
    ensures KeyedInOrder(v.side) && KeyedInOrder(v.outer)
  {
    var side0: seq<Panel>, outer0: seq<Panel> := [], [];
    var side1 := if s.mode == MODE_DATASET_SELECT then Push(side0, DataSelector(s.datasets)) else side0;
    var side2 := if s.mode == MODE_ATTRIBUTE_SELECT then Push(side1, AttributeSelector(s.nonSpatialAttrs, s.spatialAttrs)) else side1;
    var outer1 := if s.mode == MODE_ATTRIBUTE_SELECT then Push(outer0, HistogramView(s.datasetid)) else outer0;
    var side3 := if s.mode == MODE_HEATMAP_VIEW then Push(side2, CartoSidepanel(s.hoverObject, s.nonspatialattribute)) else side2;
    var outer2 := if s.loading then Push(outer1, Loading) else outer1;
    assert s.mode == MODE_ATTRIBUTE_SELECT ==> outer2[0].kind.HistogramView?;
    assert |side3| == 1 ==> side3[0] == Panel(1, side3[0].kind) && side3 == [side3[0]];
    Views(side3, outer2)
  }

  // ---------------------------------------------------------------------------
  // The component

  /**
   The state invariant the panels keep when each handler is called only
   while its panel is shown: outside dataset selection a dataset id and
   attribute lists are set, and a heatmap (loaded or in flight) exists only
   in the heatmap view.
   */
  ghost predicate Consistent(s: ViewState, heatmapsInFlight: nat) {
    && (s.mode != MODE_DATASET_SELECT ==> s.datasetid.Some? && s.nonSpatialAttrs.Some? && s.spatialAttrs.Some?)
    && (s.data.Some? ==> s.mode == MODE_HEATMAP_VIEW)
    && (heatmapsInFlight > 0 ==> s.mode == MODE_HEATMAP_VIEW)
  }

  class DataMap {
    var state: ViewState
    /** Set once a non-null polygon has been hovered: the pointer cursor was requested. */
    ghost var cursorPointer: bool
    /** Requests issued and not yet completed. */
    ghost var datasetsInFlight: nat
    ghost var heatmapsInFlight: nat

    /** The mode is one of the three that are ever assigned. */
    ghost predicate Valid()
      reads this
    {
      state.mode in {MODE_DATASET_SELECT, MODE_ATTRIBUTE_SELECT, MODE_HEATMAP_VIEW}
    }

    constructor ()
      ensures Valid() && Consistent(state, heatmapsInFlight)
      ensures state == ViewState(MODE_DATASET_SELECT, true, [], None, None, None, None, None, None, None)
      ensures !cursorPointer && datasetsInFlight == 0 && heatmapsInFlight == 0
    {
      state := ViewState(MODE_DATASET_SELECT, true, [], None, None, None, None, None, None, None);
      cursorPointer := false;
      datasetsInFlight, heatmapsInFlight := 0, 0;
    }

    /** `componentDidMount`: request the dataset list, then clear `loading` before the reply arrives. */
    method ComponentDidMount() returns (url: string)
      requires Valid()
      modifies this
      ensures Valid()
      ensures Consistent(old(state), heatmapsInFlight) ==> Consistent(state, heatmapsInFlight)
      ensures url == DATASETS_URL
      ensures state == old(state).(loading := false)
      ensures datasetsInFlight == old(datasetsInFlight) + 1
      ensures heatmapsInFlight == old(heatmapsInFlight) && cursorPointer == old(cursorPointer)
    {
      url := GetDataSets();
      state := state.(loading := false);
    }

    /** `getDataSets`: show loading and request the dataset list. */
    method GetDataSets() returns (url: string)
      requires Valid()
      modifies this
      ensures Valid()
      ensures Consistent(old(state), heatmapsInFlight) ==> Consistent(state, heatmapsInFlight)
      ensures url == DATASETS_URL
      ensures state == old(state).(loading := true)
      ensures datasetsInFlight == old(datasetsInFlight) + 1
      ensures heatmapsInFlight == old(heatmapsInFlight) && cursorPointer == old(cursorPointer)
    {
      state := state.(loading := true);
      url := DATASETS_URL;
      datasetsInFlight := datasetsInFlight + 1;
    }

    /** The dataset-list completion: replace the list on success, keep it on error; clear `loading` either way. */
    method DataSetsLoaded(reply: Reply<seq<Dataset>>)
      requires Valid() && datasetsInFlight > 0
      modifies this
      ensures Valid()
      ensures Consistent(old(state), heatmapsInFlight) ==> Consistent(state, heatmapsInFlight)
      ensures !state.loading
      ensures state == old(state).(loading := false, datasets := if reply.Ok? then reply.resp else old(state).datasets)
      ensures datasetsInFlight == old(datasetsInFlight) - 1
      ensures heatmapsInFlight == old(heatmapsInFlight) && cursorPointer == old(cursorPointer)
    {
      if reply.Ok? {
        state := state.(datasets := reply.resp);
      }
      state := state.(loading := false);
      datasetsInFlight := datasetsInFlight - 1;
    }

    /**
     `loadDataSet`: record the id, show the selected dataset's attribute lists
     (empty when no dataset has that id) and move to attribute selection.
     */
    method LoadDataSet(datasetid: int)
      requires Valid()
      modifies this
      ensures Valid()
      ensures old(state.mode) == MODE_DATASET_SELECT && Consistent(old(state), heatmapsInFlight) ==> Consistent(state, heatmapsInFlight)
      ensures state.mode == MODE_ATTRIBUTE_SELECT && state.datasetid == Some(datasetid) && !state.loading
      ensures state == old(state).(
                loading := false,
                mode := MODE_ATTRIBUTE_SELECT,
                datasetid := Some(datasetid),
                nonSpatialAttrs := Some(AttributeLists(old(state).datasets, datasetid).0),
                spatialAttrs := Some(AttributeLists(old(state).datasets, datasetid).1))
      ensures datasetsInFlight == old(datasetsInFlight) && heatmapsInFlight == old(heatmapsInFlight)
      ensures cursorPointer == old(cursorPointer)
    {
      state := state.(loading := true, datasetid := Some(datasetid));

      var nonspatialattributes: seq<NonSpatialAttribute> := [];
      var spatialattributes: seq<SpatialAttribute> := [];
      var result := Find(state.datasets, (dataset: Dataset) => dataset.id == datasetid);
      if result.Some? {
        nonspatialattributes := result.value.nonspatial;
        spatialattributes := result.value.spatial;
      }

      state := state.(
        mode := MODE_ATTRIBUTE_SELECT,
        nonSpatialAttrs := Some(nonspatialattributes),
        spatialAttrs := Some(spatialattributes),
        datasetid := Some(datasetid));

      state := state.(loading := false);
    }

    /**
     `loadHeatmap`: resolve the two attribute names, move to the heatmap view
     with `loading` set, and request the cartogram for the current dataset.
     */
    method LoadHeatmap(nonspatialatt: int, spatialatt: int) returns (url: string)
      requires Valid()
      modifies this
      ensures Valid()
      ensures old(state.mode) == MODE_ATTRIBUTE_SELECT && Consistent(old(state), old(heatmapsInFlight)) ==> Consistent(state, heatmapsInFlight)
      ensures state.mode == MODE_HEATMAP_VIEW && state.loading
      ensures state == old(state).(
                loading := true,
                mode := MODE_HEATMAP_VIEW,
                nonspatialattribute := NonSpatialName(old(state).datasets, old(state).datasetid, nonspatialatt),
                spatialattribute := NonSpatialName(old(state).datasets, old(state).datasetid, spatialatt))
      ensures url == HeatmapUrl(old(state).datasetid, spatialatt, nonspatialatt)
      ensures heatmapsInFlight == old(heatmapsInFlight) + 1
      ensures datasetsInFlight == old(datasetsInFlight) && cursorPointer == old(cursorPointer)
    {
      var attributename: Option<string> := None;
      var spatialattributename: Option<string> := None;
      if state.datasetid.Some? {
        var dataset := DatasetById(state.datasets, state.datasetid.value);
        if dataset.Some? {
          var attribute := NonSpatialById(dataset.value.nonspatial, nonspatialatt);
          if attribute.Some? {
            attributename := Some(attribute.value.name);
          }
          attribute := NonSpatialById(dataset.value.nonspatial, spatialatt);
          if attribute.Some? {
            spatialattributename := Some(attribute.value.name);
          }
        }
      }

      state := state.(
        loading := true,
        mode := MODE_HEATMAP_VIEW,
        nonspatialattribute := attributename,
        spatialattribute := spatialattributename);

      url := HeatmapUrl(state.datasetid, spatialatt, nonspatialatt);
      heatmapsInFlight := heatmapsInFlight + 1;
    }

    /** The cartogram completion: store the response on success, keep `data` on error; clear `loading` either way. */
    method HeatmapLoaded(reply: Reply<Payload>)
      requires Valid() && heatmapsInFlight > 0
      modifies this
      ensures Valid()
      ensures Consistent(old(state), old(heatmapsInFlight)) ==> Consistent(state, heatmapsInFlight)
      ensures !state.loading
      ensures state == old(state).(loading := false, data := if reply.Ok? then Some(reply.resp) else old(state).data)
      ensures heatmapsInFlight == old(heatmapsInFlight) - 1
      ensures datasetsInFlight == old(datasetsInFlight) && cursorPointer == old(cursorPointer)
    {
      if reply.Ok? {
        state := state.(data := Some(reply.resp));
      }
      state := state.(loading := false);
      heatmapsInFlight := heatmapsInFlight - 1;
    }

    /** `changeHoverObject`: record the hovered polygon (or none); nothing else in the state changes. */
    method ChangeHoverObject(hovered: Option<Feature>)
      requires Valid()
      modifies this
      ensures Valid()
      ensures Consistent(old(state), heatmapsInFlight) ==> Consistent(state, heatmapsInFlight)
      ensures state == old(state).(hoverObject := hovered)
      ensures cursorPointer == (old(cursorPointer) || hovered.Some?)
      ensures datasetsInFlight == old(datasetsInFlight) && heatmapsInFlight == old(heatmapsInFlight)
    {
      if hovered.Some? {
        cursorPointer := true;
      }
      state := state.(hoverObject := hovered);
    }
  }

  // ---------------------------------------------------------------------------
  // The yellow cab dataset through the view

  /** Choosing dataset 301 shows its six value attributes (ids 0 to 5) and its two locations (ids 1 and 2). */
  lemma YellowDataAttributes()
    ensures NonSpatialIds(AttributeLists(Datasets(), 301).0) == [0, 1, 2, 3, 4, 5]
    ensures SpatialIds(AttributeLists(Datasets(), 301).1) == [1, 2]
    ensures AttributeLists(Datasets(), 999) == ([], [])
  {
  }

  /**
   Heatmap for value attribute 5 and location 2 of dataset 301: the value
   attribute is "Tip Percentage", and the location resolves to value
   attribute 2, "Trip Distance", not to "Dropoff Location".
   */
  lemma YellowDataHeatmapNames()
    ensures NonSpatialName(Datasets(), Some(301), 5) == Some("Tip Percentage")
    ensures NonSpatialName(Datasets(), Some(301), 2) == Some("Trip Distance")
    ensures Datasets()[0].spatial[1].id == 2 && Datasets()[0].spatial[1].name == "Dropoff Location"
  {
    CatalogLookup(301);
  }

  /** A session: mount, list, pick dataset 301, ask for a heatmap, the request fails. */
  method YellowDataSession()
  {
    var m := new DataMap();
    var u := m.ComponentDidMount();
    assert !m.state.loading && m.state.mode == MODE_DATASET_SELECT;
    m.DataSetsLoaded(Ok(Datasets()));
    assert Render(m.state).side == [Panel(1, DataSelector(Datasets()))];

    m.LoadDataSet(301);
    YellowDataAttributes();
    assert m.state.mode == MODE_ATTRIBUTE_SELECT;
    assert NonSpatialIds(m.state.nonSpatialAttrs.value) == [0, 1, 2, 3, 4, 5];
    assert Render(m.state).outer == [Panel(1, HistogramView(Some(301)))];

    u := m.LoadHeatmap(5, 2);
    YellowDataHeatmapNames();
    assert m.state.nonspatialattribute == Some("Tip Percentage");
    assert m.state.spatialattribute == Some("Trip Distance");
    assert u == HeatmapUrl(Some(301), 2, 5);
    assert Render(m.state).outer == [Panel(1, Loading)];

    m.HeatmapLoaded(Err("network error"));
    assert !m.state.loading && m.state.data.None? && m.state.mode == MODE_HEATMAP_VIEW;
    assert Consistent(m.state, m.heatmapsInFlight);
  }

  /** Choosing an id no dataset has still moves to attribute selection, with empty lists. */
  method UnknownDatasetSession()
  {
    var m := new DataMap();
    m.LoadDataSet(999);
    assert m.state.mode == MODE_ATTRIBUTE_SELECT && m.state.datasetid == Some(999);
    assert m.state.nonSpatialAttrs == Some([]) && m.state.spatialAttrs == Some([]);
  }
}
