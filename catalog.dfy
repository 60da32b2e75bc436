/**
 The server's static dataset catalog: the descriptors the map view lists,
 and the search by id that every handler uses.
 */
module Catalog {
  import opened Lookup

  /** A location attribute: the columns holding longitude and latitude. */
  datatype SpatialAttribute = SpatialAttribute(id: int, name: string, lng: int, lat: int)

  /** A time attribute and its column; `None` when the descriptor gives no `index` field. */
  datatype TemporalAttribute = TemporalAttribute(id: int, name: string, index: Option<int>)

  /** A value attribute (a count or an amount). */
  datatype NonSpatialAttribute = NonSpatialAttribute(id: int, name: string)

  datatype Dataset = Dataset(
    id: int,
    name: string,
    title: string,
    spatial: seq<SpatialAttribute>,
    temporal: seq<TemporalAttribute>,
    nonspatial: seq<NonSpatialAttribute>)

  function SpatialIds(s: seq<SpatialAttribute>): seq<int> {
    seq(|s|, i requires 0 <= i < |s| => s[i].id)
  }

  function NonSpatialIds(s: seq<NonSpatialAttribute>): seq<int> {
    seq(|s|, i requires 0 <= i < |s| => s[i].id)
  }

  predicate UniqueIds(ids: seq<int>) {
    forall i, j :: 0 <= i < j < |ids| ==> ids[i] != ids[j]
  }

  /**
   The catalog: one dataset, the January 2016 New York yellow cab trips,
   with two locations and six value attributes, each list in ascending id order.
   */
  function Datasets(): (r: seq<Dataset>)
    ensures |r| == 1
    ensures r[0].id == 301 && r[0].name == "yellowdata"
    ensures SpatialIds(r[0].spatial) == [1, 2] && UniqueIds(SpatialIds(r[0].spatial))
    ensures NonSpatialIds(r[0].nonspatial) == [0, 1, 2, 3, 4, 5] && UniqueIds(NonSpatialIds(r[0].nonspatial))
  {
    [Dataset(
       301,
       "yellowdata",
       "NYC Yellow Cab Data/Jan 16",
       [SpatialAttribute(1, "Pickup Location", 5, 6),
        SpatialAttribute(2, "Dropoff Location", 9, 10)],
       [TemporalAttribute(1, "Pickup Time", Some(0)),
        TemporalAttribute(2, "Dropoff Time", None)],
       [NonSpatialAttribute(0, "Count"),
        NonSpatialAttribute(1, "Passenger Count"),
        NonSpatialAttribute(2, "Trip Distance"),
        NonSpatialAttribute(3, "Tip Amount"),
        NonSpatialAttribute(4, "Total Amount"),
        NonSpatialAttribute(5, "Tip Percentage")])]
  }

  /** `_.find(datasets, {id: id})`: the first dataset carrying `id`. */
  function DatasetById(datasets: seq<Dataset>, id: int): (r: Option<Dataset>)
    ensures r.None? <==> forall j :: 0 <= j < |datasets| ==> datasets[j].id != id
    ensures r.Some? ==> r.value.id == id
    ensures r.Some? ==> exists i :: 0 <= i < |datasets| && datasets[i] == r.value &&
                          forall k :: 0 <= k < i ==> datasets[k].id != id
  {
    Find(datasets, (d: Dataset) => d.id == id)
  }

  /** `_.find(attributes, {id: id})` over a list of value attributes. */
  function NonSpatialById(attributes: seq<NonSpatialAttribute>, id: int): (r: Option<NonSpatialAttribute>)
    ensures r.None? <==> forall j :: 0 <= j < |attributes| ==> attributes[j].id != id
    ensures r.Some? ==> r.value.id == id
    ensures r.Some? ==> exists i :: 0 <= i < |attributes| && attributes[i] == r.value &&
                          forall k :: 0 <= k < i ==> attributes[k].id != id
  {
    Find(attributes, (a: NonSpatialAttribute) => a.id == id)
  }

  /** The catalog answers exactly one id, 301. */
  lemma CatalogLookup(id: int)
    ensures DatasetById(Datasets(), id).Some? <==> id == 301
    ensures id == 301 ==> DatasetById(Datasets(), id) == Some(Datasets()[0])
  {
  }
}
