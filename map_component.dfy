/**
 * The rain map: the GeoJSON built from the realtime precipitation samples
 * and from the selected city, the map's sources and layers, to which a
 * source is added once and whose data is replaced on every later update,
 * and the loading flag of the realtime fetch. Responses are inputs.
 */
module MapComponent {
  import opened Common
  import opened JsValues

  /* ---------------------------------------------------------------------- */
  /* GeoJSON                                                                */
  /* ---------------------------------------------------------------------- */

  /** A GeoJSON Point; its `coordinates` array is `[lon, lat]`. */
  datatype Point = Point(lon: Js, lat: Js)

  /** A GeoJSON Feature: its properties in insertion order, and its point. */
  datatype Feature = Feature(properties: seq<(string, Js)>, geometry: Point)

  datatype FeatureCollection = FeatureCollection(features: seq<Feature>)

  /** The `coordinates` array of a point. */
  function Coordinates(p: Point): (c: seq<Js>)
    ensures |c| == 2 && c[0] == p.lon && c[1] == p.lat
  {
    [p.lon, p.lat]
  }

  /** A feature's property, undefined when absent. */
  function Property(f: Feature, key: string): Js {
    Lookup(f.properties, key)
  }

  /** The feature of sample p at position i of the realtime data. */
  function RainFeature(p: Js, i: nat): Feature
    requires !IsNullish(p)
  {
    Feature(
      [("intensity", Get(p, "precipitation")), ("precipitation", Get(p, "precipitation")), ("id", Num(i))],
      Point(Get(p, "lon"), Get(p, "lat")))
  }

  /** `precipData.data.map((p, i) => …)`: one feature per sample, in order, nothing dropped or clamped. */
  function RainFeatures(samples: seq<Js>): (features: seq<Feature>)
    requires NoNullish(samples)
    ensures |features| == |samples|
    ensures forall i :: 0 <= i < |samples| ==> features[i] == RainFeature(samples[i], i)
  {
    if samples == [] then []
    else RainFeatures(samples[..|samples| - 1]) + [RainFeature(samples[|samples| - 1], |samples| - 1)]
  }

  /** The properties of one sample's feature. */
  lemma RainFeatureProperties(p: Js, i: nat)
    requires !IsNullish(p)
    ensures Property(RainFeature(p, i), "id") == Num(i)
    ensures Property(RainFeature(p, i), "intensity") == Get(p, "precipitation")
    ensures Property(RainFeature(p, i), "precipitation") == Get(p, "precipitation")
  {
    var props := RainFeature(p, i).properties;
    var rest := [("precipitation", Get(p, "precipitation")), ("id", Num(i))];
    assert props[1..] == rest;
    assert rest[1..] == [("id", Num(i))];
    assert "intensity" != "id" && "precipitation" != "id" && "intensity" != "precipitation" by {
      assert |"intensity"| != |"id"| && |"precipitation"| != |"id"| && |"intensity"| != |"precipitation"|;
    }
    assert Lookup(props, "id") == Lookup(rest, "id") == Lookup(rest[1..], "id") == Num(i);
    assert Lookup(props, "precipitation") == Lookup(rest, "precipitation");
  }

  /**
   * Feature i carries id i, the sample's precipitation as both intensity
   * and precipitation, and the sample's coordinates in [lon, lat] order.
   */
  lemma RainFeatureReadsBack(samples: seq<Js>, i: int)
    requires NoNullish(samples) && 0 <= i < |samples|
    ensures var f := RainFeatures(samples)[i];
      && Property(f, "id") == Num(i)
      && Property(f, "intensity") == Get(samples[i], "precipitation")
      && Property(f, "precipitation") == Get(samples[i], "precipitation")
      && Coordinates(f.geometry) == [Get(samples[i], "lon"), Get(samples[i], "lat")]
  {
    assert RainFeatures(samples)[i] == RainFeature(samples[i], i);
    RainFeatureProperties(samples[i], i);
  }

  /** Feature ids are distinct: they are the positions. */
  lemma RainFeatureIdsDistinct(samples: seq<Js>, i: int, j: int)
    requires NoNullish(samples) && 0 <= i < |samples| && 0 <= j < |samples| && i != j
    ensures Property(RainFeatures(samples)[i], "id") != Property(RainFeatures(samples)[j], "id")
  {
    RainFeatureReadsBack(samples, i);
    RainFeatureReadsBack(samples, j);
  }

  /** The collection of the city marker: one feature at the city's coordinates, named after the selection. */
  function CityCollection(cityData: Js, selectedCity: Js): (c: FeatureCollection)
    requires !IsNullish(cityData)
    ensures |c.features| == 1
    ensures Coordinates(c.features[0].geometry) == [Get(cityData, "lon"), Get(cityData, "lat")]
    ensures Property(c.features[0], "precipitation") == Get(cityData, "precipitation")
    ensures Property(c.features[0], "name") == selectedCity
  {
    var props := [("precipitation", Get(cityData, "precipitation")), ("name", selectedCity)];
    assert props[1..] == [("name", selectedCity)];
    assert "precipitation" != "name" by { assert |"precipitation"| != |"name"|; }
    assert Lookup(props, "name") == Lookup(props[1..], "name") == selectedCity;
    FeatureCollection([
      Feature(
        props,
        Point(Get(cityData, "lon"), Get(cityData, "lat")))])
  }

  /* ---------------------------------------------------------------------- */
  /* Colour ramps                                                           */
  /* ---------------------------------------------------------------------- */

  /** The stops of the heatmap's colour ramp over the heatmap density. */
  const HeatmapStops: seq<(real, string)> := [
    (0.0, "rgba(0, 200, 0, 0)"),
    (0.2, "rgba(120, 0, 150, 0.6)"),
    (0.4, "rgba(180, 0, 120, 0.7)"),
    (0.6, "rgba(230, 80, 0, 0.8)"),
    (0.8, "rgba(255, 100, 0, 0.9)"),
    (1.0, "rgba(255, 0, 0, 1)")]

  /** The stops of the city marker's colour ramp over its precipitation. */
  const CityStops: seq<(real, string)> := [
    (0.0, "rgba(0, 200, 0, 1)"),
    (0.5, "rgba(120, 0, 150, 0.6)"),
    (1.0, "rgba(180, 0, 120, 0.7)"),
    (1.5, "rgba(230, 80, 0, 0.8)"),
    (2.0, "rgba(255, 100, 0, 0.9)"),
    (2.5, "rgba(255, 0, 0, 1)")]

  /** The heatmap weight ramp: intensity 0 weighs 0, intensity 3 weighs 1. */
  const WeightStops: seq<(real, real)> := [(0.0, 0.0), (3.0, 1.0)]

  /** An `interpolate` expression needs its inputs in strictly ascending order. */
  predicate Ascending<T>(stops: seq<(real, T)>) {
    forall i, j :: 0 <= i < j < |stops| ==> stops[i].0 < stops[j].0
  }

  /** The ramps are valid: their inputs ascend, from 0 up to 1 for the density and 2.5 for the city. */
  lemma RampsAscending()
    ensures Ascending(HeatmapStops) && HeatmapStops[0].0 == 0.0 && HeatmapStops[|HeatmapStops| - 1].0 == 1.0
    ensures Ascending(CityStops) && CityStops[0].0 == 0.0 && CityStops[|CityStops| - 1].0 == 2.5
    ensures Ascending(WeightStops)
  {
  }

  /* ---------------------------------------------------------------------- */
  /* The map component                                                      */
  /* ---------------------------------------------------------------------- */

  /** A map layer and the source it draws. */
  datatype Layer = Layer(id: string, source: string)

  const RainSource: string := "intensity-data"
  const RainLayer: string := "rain-heatmap"
  const CitySource: string := "city-point"
  const CityLayer: string := "city-marker"

  /** Some layer has this id. */
  predicate HasLayer(layers: seq<Layer>, id: string) {
    exists i :: 0 <= i < |layers| && layers[i].id == id
  }

  /** Appending a layer adds exactly its id. */
  lemma HasLayerAppend(layers: seq<Layer>, l: Layer, id: string)
    ensures HasLayer(layers + [l], id) <==> HasLayer(layers, id) || l.id == id
  {
    var all := layers + [l];
    if l.id == id {
      assert all[|layers|].id == id;
    }
    if HasLayer(layers, id) {
      var i :| 0 <= i < |layers| && layers[i].id == id;
      assert all[i].id == id;
    }
  }

  /** What a request can give: the JSON body, a non-OK status, or a failure (including the timeout). */
  datatype Fetched = FetchOk(data: Js) | FetchNotOk(status: int) | FetchFailed

  /** `MapComponent` with its `loading`, `precipData` and `cityData` state and the map's sources and layers. */
  class RainMap {
    var loading: bool
    var precipData: Js
    var cityData: Js
    var sources: map<string, FeatureCollection>
    var layers: seq<Layer>

    /**
     * Layer ids are unique, every layer draws a present source, and each
     * of the two sources is present exactly when its layer is.
     */
    ghost predicate Valid()
      reads this
    {
      && (forall i, j :: 0 <= i < j < |layers| ==> layers[i].id != layers[j].id)
      && (forall i :: 0 <= i < |layers| ==> layers[i].source in sources)
      && (RainSource in sources <==> HasLayer(layers, RainLayer))
      && (CitySource in sources <==> HasLayer(layers, CityLayer))
    }

    /** The first render: loading, no data, an empty map. */
    constructor()
      ensures Valid()
      ensures loading && precipData == Null && cityData == Null && sources == map[] && layers == []
    {
      loading := true;
      precipData := Null;
      cityData := Null;
      sources := map[];
      layers := [];
    }

    /** The realtime fetch settles: its data is kept on success, and loading ends either way. */
    method RealtimeSettled(response: Fetched)
      modifies this
      ensures !loading
      ensures response.FetchOk? ==> precipData == response.data
      ensures !response.FetchOk? ==> precipData == old(precipData)
      ensures cityData == old(cityData) && sources == old(sources) && layers == old(layers)
    {
      if response.FetchOk? {
        precipData := response.data;
      }
      loading := false;
    }

    /** The city fetch settles: its data is kept on success; loading is not its concern. */
    method CitySettled(response: Fetched)
      modifies this
      ensures response.FetchOk? ==> cityData == response.data
      ensures !response.FetchOk? ==> cityData == old(cityData)
      ensures loading == old(loading) && precipData == old(precipData)
      ensures sources == old(sources) && layers == old(layers)
    {
      if response.FetchOk? {
        cityData := response.data;
      }
    }

    /** `getSource` absent: `addSource` and `addLayer`; present: `setData`. */
    method ShowCollection(sourceId: string, layerId: string, data: FeatureCollection)
      requires Valid()
      requires (sourceId, layerId) == (RainSource, RainLayer) || (sourceId, layerId) == (CitySource, CityLayer)
      modifies this
      ensures Valid()
      ensures sources == old(sources)[sourceId := data]
      ensures sourceId in old(sources) ==> layers == old(layers)
      ensures sourceId !in old(sources) ==> layers == old(layers) + [Layer(layerId, sourceId)]
      ensures loading == old(loading) && precipData == old(precipData) && cityData == old(cityData)
    {
      if sourceId !in sources {
        sources := sources[sourceId := data];
        HasLayerAppend(layers, Layer(layerId, sourceId), RainLayer);
        HasLayerAppend(layers, Layer(layerId, sourceId), CityLayer);
        layers := layers + [Layer(layerId, sourceId)];
      } else {
        sources := sources[sourceId := data];
      }
    }

    /**
     * The heatmap effect once the map has loaded: the samples' collection
     * becomes the one rain source, drawn by exactly one heatmap layer.
     */
    method DrawRain()
      requires Valid() && Truthy(precipData)
      requires Get(precipData, "data").Arr? && NoNullish(Get(precipData, "data").elems)
      modifies this
      ensures loading == old(loading) && precipData == old(precipData) && cityData == old(cityData)
      ensures Valid()
      ensures sources == old(sources)[RainSource := FeatureCollection(RainFeatures(Get(precipData, "data").elems))]
      ensures HasLayer(layers, RainLayer)
      ensures forall l :: l in old(layers) ==> l in layers
      ensures layers == if RainSource in old(sources) then old(layers) else old(layers) + [Layer(RainLayer, RainSource)]
    {
      var samples := Get(precipData, "data").elems;
      ShowCollection(RainSource, RainLayer, FeatureCollection(RainFeatures(samples)));
    }

    /** The city effect once the map has loaded: one marker at the city, in the one city source. */
    method DrawCity(selectedCity: Js)
      requires Valid() && Truthy(cityData)
      modifies this
      ensures loading == old(loading) && precipData == old(precipData) && cityData == old(cityData)
      ensures Valid()
      ensures sources == old(sources)[CitySource := CityCollection(cityData, selectedCity)]
      ensures HasLayer(layers, CityLayer)
      ensures forall l :: l in old(layers) ==> l in layers
      ensures layers == if CitySource in old(sources) then old(layers) else old(layers) + [Layer(CityLayer, CitySource)]
    {
      ShowCollection(CitySource, CityLayer, CityCollection(cityData, selectedCity));
    }
  }
}
