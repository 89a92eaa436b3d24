/**
  The layer component: merges per-type defaults from the environment with the
  layer's own `layout` and `paint`, unhides a layer the map already has or adds
  the merged layer, re-applies every property on update, and on destroy hides a
  long-lived layer or removes any other.
*/
module MapboxGlLayer {
  import opened Wrappers
  import opened Json
  import opened Mapbox

  /**
    `_envConfig`: `config['mapbox-gl'][layer.type]`, where `config` is the
    `mapbox-gl` block; a nullish block reads as `{}`, so it gives no defaults.
  */
  function EnvConfig(config: Json, layer: Json): (r: Json)
    ensures Nullish(config) ==> r == Undefined
    ensures Get(layer, "type").Str? ==> r == Get(config, Get(layer, "type").s)
    ensures !Get(layer, "type").Str? ==> r == Undefined
  {
    var t := Get(layer, "type");
    if t.Str? then Get(config, t.s) else Undefined
  }

  /**
    `_layout` (group "layout") and `_paint` (group "paint"): every key of the
    per-type defaults and of the layer's own group, the layer winning.
  */
  function StyleGroup(config: Json, layer: Json, group: string): (r: map<string, Json>)
    ensures r.Keys == OwnKeys(Get(EnvConfig(config, layer), group)) + OwnKeys(Get(layer, group))
    ensures forall k :: k in OwnKeys(Get(layer, group)) ==> r[k] == Get(Get(layer, group), k)
    ensures forall k :: k in r && k !in OwnKeys(Get(layer, group)) ==> r[k] == Get(Get(EnvConfig(config, layer), group), k)
  {
    Overlay(Get(EnvConfig(config, layer), group), Get(layer, group))
  }

  /**
    `_sourceId: reads('layer.source')`: the source id a parent source
    component passes in, or else the layer's own `source`.
  */
  function SourceIdOf(passed: Option<Json>, layer: Json): (s: Json)
    ensures passed.Some? ==> s == passed.value
    ensures passed.None? ==> s == Get(layer, "source")
  {
    if passed.Some? then passed.value else Get(layer, "source")
  }

  /** The keys `_layer` computes rather than copies. */
  const ComputedKeys: set<string> := {"id", "type", "source", "layout", "paint"}

  /**
    `_layer`: every other key of `layer` (filter, minzoom, metadata, ...) kept
    as it is, and id, type, source, layout and paint replaced by the computed
    values; `sourceId` is `_sourceId`.
  */
  function MergedLayer(config: Json, layer: Json, sourceId: Json): (r: map<string, Json>)
    ensures r.Keys == OwnKeys(layer) + ComputedKeys
    ensures forall k :: k in OwnKeys(layer) && k !in ComputedKeys ==> r[k] == Get(layer, k)
    ensures r["id"] == Get(layer, "id") && r["type"] == Get(layer, "type") && r["source"] == sourceId
    ensures r["layout"] == Obj(StyleGroup(config, layer, "layout"))
    ensures r["paint"] == Obj(StyleGroup(config, layer, "paint"))
  {
    WithComputed(Fields(layer), Get(layer, "id"), Get(layer, "type"), sourceId,
                 Obj(StyleGroup(config, layer, "layout")), Obj(StyleGroup(config, layer, "paint")))
  }

  /** `assign({}, fields, {id, type, source, layout, paint})`. */
  function WithComputed(fields: map<string, Json>, id: Json, layerType: Json, source: Json, layout: Json, paint: Json): (r: map<string, Json>)
    ensures r.Keys == fields.Keys + ComputedKeys
    ensures forall k :: k in fields && k !in ComputedKeys ==> r[k] == fields[k]
    ensures r["id"] == id && r["type"] == layerType && r["source"] == source && r["layout"] == layout && r["paint"] == paint
  {
    fields["id" := id]["type" := layerType]["source" := source]["layout" := layout]["paint" := paint]
  }

  /** What `didUpdateAttrs` reads from `_layer`, in terms of the layer itself. */
  lemma MergedLayerParts(config: Json, layer: Json, sourceId: Json)
    ensures Fields(MergedLayer(config, layer, sourceId)["layout"]) == StyleGroup(config, layer, "layout")
    ensures Fields(MergedLayer(config, layer, sourceId)["paint"]) == StyleGroup(config, layer, "paint")
  {
  }

  /** The other keys `didUpdateAttrs` reads from `_layer` are copied from the layer. */
  lemma MergedLayerKeys(config: Json, layer: Json, sourceId: Json)
    ensures ("filter" in MergedLayer(config, layer, sourceId)) == ("filter" in OwnKeys(layer))
    ensures "filter" in OwnKeys(layer) ==> MergedLayer(config, layer, sourceId)["filter"] == Get(layer, "filter")
    ensures Get(Obj(MergedLayer(config, layer, sourceId)), "minzoom") == Get(layer, "minzoom")
    ensures Get(Obj(MergedLayer(config, layer, sourceId)), "maxzoom") == Get(layer, "maxzoom")
    ensures Get(Obj(MergedLayer(config, layer, sourceId)), "id") == Get(layer, "id")
  {
    var r := MergedLayer(config, layer, sourceId);
    assert "filter" !in ComputedKeys && "minzoom" !in ComputedKeys && "maxzoom" !in ComputedKeys;
    assert ("minzoom" in r) == ("minzoom" in OwnKeys(layer));
    assert ("maxzoom" in r) == ("maxzoom" in OwnKeys(layer));
  }

  /**
    A layer added from `_layer` draws from `_sourceId`: inside a source block
    it is the parent's source, whatever the layer hash says, so that source
    cannot be removed while the layer is in the map.
  */
  lemma {:induction false} AddedLayerUsesSource(layers: map<string, StyleLayer>, id: string, config: Json, layer: Json,
                                                passed: Option<Json>)
    requires SourceIdOf(passed, layer).Str?
    ensures UsedByLayer(layers[id := LayerFromSpec(MergedLayer(config, layer, SourceIdOf(passed, layer)))],
                        SourceIdOf(passed, layer).s)
  {
    var added := layers[id := LayerFromSpec(MergedLayer(config, layer, SourceIdOf(passed, layer)))];
    assert added[id].SourceName() == SourceIdOf(passed, layer);
  }

  /** The assertions of `init`, and the TypeError of reading `type` from a null layer. */
  datatype LayerError = NoLayer | MissingType | MissingId | IdNotString

  function CheckLayer(layer: Json): (e: Option<LayerError>)
    ensures e.None? <==> !Nullish(layer) && Truthy(Get(layer, "type")) && Get(layer, "id").Str? && Get(layer, "id").s != ""
    ensures Nullish(layer) ==> e == Some(NoLayer)
    ensures !Nullish(layer) && !Truthy(Get(layer, "type")) ==> e == Some(MissingType)
    ensures !Nullish(layer) && Truthy(Get(layer, "type")) && !Truthy(Get(layer, "id")) ==> e == Some(MissingId)
  {
    if Nullish(layer) then Some(NoLayer)
    else if !Truthy(Get(layer, "type")) then Some(MissingType)
    else if !Truthy(Get(layer, "id")) then Some(MissingId)
    else if !Get(layer, "id").Str? then Some(IdNotString)
    else None
  }

  /**
    What `didUpdateAttrs` leaves of the style layer `l`: every merged layout and
    paint key set, other properties kept; the filter replaced only when the
    layer has a `filter` key; the zoom range set from minzoom and maxzoom.
  */
  function UpdatedLayer(l: StyleLayer, config: Json, layer: Json): (r: StyleLayer)
    ensures l.layout.Keys <= r.layout.Keys && l.paint.Keys <= r.paint.Keys && l.props.Keys <= r.props.Keys
  {
    var styled := l.(layout := l.layout + StyleGroup(config, layer, "layout"),
                     paint := l.paint + StyleGroup(config, layer, "paint"));
    var filtered := if "filter" in OwnKeys(layer) then styled.(props := styled.props["filter" := Get(layer, "filter")])
                    else styled;
    filtered.WithZoomRange(Get(layer, "minzoom"), Get(layer, "maxzoom"))
  }

  /** UpdatedLayer sets every merged layout key and keeps the layer's other layout properties. */
  lemma UpdatedLayerLayout(l: StyleLayer, config: Json, layer: Json)
    ensures var r := UpdatedLayer(l, config, layer);
      var layout := StyleGroup(config, layer, "layout");
      && r.layout.Keys == l.layout.Keys + layout.Keys
      && (forall k :: k in layout ==> r.layout[k] == layout[k])
      && (forall k :: k in l.layout && k !in layout ==> r.layout[k] == l.layout[k])
  {
    assert UpdatedLayer(l, config, layer).layout == l.layout + StyleGroup(config, layer, "layout");
  }

  /** UpdatedLayer sets every merged paint key and keeps the layer's other paint properties. */
  lemma UpdatedLayerPaint(l: StyleLayer, config: Json, layer: Json)
    ensures var r := UpdatedLayer(l, config, layer);
      var paint := StyleGroup(config, layer, "paint");
      && r.paint.Keys == l.paint.Keys + paint.Keys
      && (forall k :: k in paint ==> r.paint[k] == paint[k])
      && (forall k :: k in l.paint && k !in paint ==> r.paint[k] == l.paint[k])
  {
    assert UpdatedLayer(l, config, layer).paint == l.paint + StyleGroup(config, layer, "paint");
  }

  /**
    UpdatedLayer replaces the filter only when the layer has a `filter` key,
    and keeps every property other than the filter and the zoom bounds.
  */
  lemma UpdatedLayerProps(l: StyleLayer, config: Json, layer: Json)
    ensures var r := UpdatedLayer(l, config, layer);
      && ("filter" in OwnKeys(layer) ==> "filter" in r.props && r.props["filter"] == Get(layer, "filter"))
      && ("filter" !in OwnKeys(layer) ==> ("filter" in r.props <==> "filter" in l.props))
      && ("filter" !in OwnKeys(layer) && "filter" in l.props ==> r.props["filter"] == l.props["filter"])
      && (forall k :: k in l.props && k !in {"filter", "minzoom", "maxzoom"} ==> r.props[k] == l.props[k])
      && r.props.Keys <= l.props.Keys + {"filter", "minzoom", "maxzoom"}
  {
  }

  /**
    UpdatedLayer takes every zoom bound the layer sets, and a bound the layer
    leaves null or undefined keeps the layer's old value, or stays absent.
  */
  lemma UpdatedLayerZoom(l: StyleLayer, config: Json, layer: Json)
    ensures var r := UpdatedLayer(l, config, layer);
      var minzoom := Get(layer, "minzoom");
      var maxzoom := Get(layer, "maxzoom");
      && (!Nullish(minzoom) ==> "minzoom" in r.props && r.props["minzoom"] == minzoom)
      && (!Nullish(maxzoom) ==> "maxzoom" in r.props && r.props["maxzoom"] == maxzoom)
      && (Nullish(minzoom) ==> ("minzoom" in r.props <==> "minzoom" in l.props))
      && (Nullish(maxzoom) ==> ("maxzoom" in r.props <==> "maxzoom" in l.props))
      && (Nullish(minzoom) && "minzoom" in l.props ==> r.props["minzoom"] == l.props["minzoom"])
      && (Nullish(maxzoom) && "maxzoom" in l.props ==> r.props["maxzoom"] == l.props["maxzoom"])
  {
  }

  class LayerComponent {
    const handle: MapHandle
    const longLived: bool
    const config: Json
    /** `_sourceId` as a parent source component passes it in, if it does. */
    const passedSourceId: Option<Json>
    var layer: Json
    /** The id of the layer to insert before; the stacking order is not modelled. */
    var before: Json

    constructor (handle: MapHandle, longLived: bool, config: Json, passedSourceId: Option<Json>, layer: Json, before: Json)
      ensures this.handle == handle && this.longLived == longLived && this.config == config
      ensures this.passedSourceId == passedSourceId && this.layer == layer && this.before == before
    {
      this.handle, this.longLived, this.config, this.passedSourceId := handle, longLived, config, passedSourceId;
      this.layer, this.before := layer, before;
    }

    /**
      `init`: fails unless the layer has a type and an id. A layer the map
      already has is made visible and not added again; otherwise the merged
      layer is added. Either way the layer is present, and no other changes.
    */
    static method Init(handle: MapHandle, longLived: bool, config: Json, passedSourceId: Option<Json>, layer: Json, before: Json)
      returns (c: LayerComponent?, err: Option<LayerError>)
      modifies handle`layers
      ensures err == CheckLayer(layer) && (err.Some? <==> c == null)
      ensures err.Some? ==> handle.layers == old(handle.layers)
      ensures err.None? ==>
        && fresh(c) && c.handle == handle && c.longLived == longLived && c.config == config
        && c.passedSourceId == passedSourceId && c.layer == layer && c.before == before
      ensures err.None? ==>
        var id := Get(layer, "id").s;
        var was := old(handle.layers);
        && (id in was ==>
              && handle.layers == was[id := was[id].(layout := was[id].layout["visibility" := Str("visible")])]
              && handle.layers[id].Visible())
        && (id !in was ==> handle.layers == was[id := LayerFromSpec(MergedLayer(config, layer, SourceIdOf(passedSourceId, layer)))])
    {
      err := CheckLayer(layer);
      if err.Some? {
        c := null;
        return;
      }
      c := new LayerComponent(handle, longLived, config, passedSourceId, layer, before);
      var id := Get(layer, "id").s;
      if id in handle.layers {
        handle.SetLayoutProperty(id, "visibility", Str("visible"));
      } else {
        handle.AddLayer(id, MergedLayer(config, layer, SourceIdOf(passedSourceId, layer)));
      }
    }

    /**
      `didUpdateAttrs` with the new `layer`: one setter per merged layout and
      paint key, `setFilter` only when the layer has a `filter` key, and the
      zoom range, all on the layer named by the new id. No other layer changes.
      The values read from `_layer` are those MergedLayerParts and
      MergedLayerKeys relate to the layer and the environment.
    */
    method DidUpdateAttrs(newLayer: Json)
      modifies this`layer, handle`layers
      ensures layer == newLayer
      ensures Get(newLayer, "id").Str? && Get(newLayer, "id").s in old(handle.layers) ==>
        var id := Get(newLayer, "id").s;
        handle.layers == old(handle.layers)[id := UpdatedLayer(old(handle.layers)[id], config, newLayer)]
      ensures !(Get(newLayer, "id").Str? && Get(newLayer, "id").s in old(handle.layers)) ==> handle.layers == old(handle.layers)
    {
      layer := newLayer;
      if !Get(newLayer, "id").Str? {
        return;
      }
      var id := Get(newLayer, "id").s;
      ghost var was := handle.layers;
      var layoutProps := StyleGroup(config, newLayer, "layout");
      var paintProps := StyleGroup(config, newLayer, "paint");
      SetLayoutProperties(id, layoutProps);
      SetPaintProperties(id, paintProps);
      if "filter" in OwnKeys(newLayer) {
        handle.SetFilter(id, Get(newLayer, "filter"));
      }
      ghost var filtered := handle.layers;
      handle.SetLayerZoomRange(id, Get(newLayer, "minzoom"), Get(newLayer, "maxzoom"));
      if id in was {
        // Each setter replaced the entry of `id` once more; the table is `was` with its final value.
        var l := was[id];
        var l1 := l.(layout := l.layout + layoutProps);
        var l2 := l1.(paint := l1.paint + paintProps);
        UpdateTwice(was, id, l1, l2);
        var l3 := if "filter" in OwnKeys(newLayer) then l2.(props := l2.props["filter" := Get(newLayer, "filter")]) else l2;
        UpdateTwice(was, id, l2, l3);
        assert filtered == was[id := l3];
        UpdateTwice(was, id, l3, l3.WithZoomRange(Get(newLayer, "minzoom"), Get(newLayer, "maxzoom")));
      }
    }

    /** The loop `for (k in _layer.layout) setLayoutProperty(id, k, ...)`. */
    method SetLayoutProperties(id: string, props: map<string, Json>)
      modifies handle`layers
      ensures id in old(handle.layers) ==>
        handle.layers == old(handle.layers)[id := old(handle.layers)[id].(layout := old(handle.layers)[id].layout + props)]
      ensures id !in old(handle.layers) ==> handle.layers == old(handle.layers)
    {
      ghost var was := handle.layers;
      var todo := props.Keys;
      assert props - todo == map[];
      assert id in was ==> was[id].layout + (props - todo) == was[id].layout;
      while todo != {}
        invariant todo <= props.Keys
        invariant id in was ==> handle.layers == was[id := was[id].(layout := was[id].layout + (props - todo))]
        invariant id !in was ==> handle.layers == was
        decreases todo
      {
        var k :| k in todo;
        handle.SetLayoutProperty(id, k, props[k]);
        ghost var before := todo;
        todo := todo - {k};
        assert id in was ==> (was[id].layout + (props - before))[k := props[k]] == was[id].layout + (props - todo);
      }
      assert props - todo == props;
    }

    /** The loop `for (k in _layer.paint) setPaintProperty(id, k, ...)`. */
    method SetPaintProperties(id: string, props: map<string, Json>)
      modifies handle`layers
      ensures id in old(handle.layers) ==>
        handle.layers == old(handle.layers)[id := old(handle.layers)[id].(paint := old(handle.layers)[id].paint + props)]
      ensures id !in old(handle.layers) ==> handle.layers == old(handle.layers)
    {
      ghost var was := handle.layers;
      var todo := props.Keys;
      assert props - todo == map[];
      assert id in was ==> was[id].paint + (props - todo) == was[id].paint;
      while todo != {}
        invariant todo <= props.Keys
        invariant id in was ==> handle.layers == was[id := was[id].(paint := was[id].paint + (props - todo))]
        invariant id !in was ==> handle.layers == was
        decreases todo
      {
        var k :| k in todo;
        handle.SetPaintProperty(id, k, props[k]);
        ghost var before := todo;
        todo := todo - {k};
        assert id in was ==> (was[id].paint + (props - before))[k := props[k]] == was[id].paint + (props - todo);
      }
      assert props - todo == props;
    }

    /**
      `willDestroy`: a long-lived layer stays in the map with visibility
      `none`; any other is removed. No other layer changes.
    */
    method WillDestroy()
      modifies handle`layers
      ensures Get(layer, "id").Str? && longLived ==>
        var id := Get(layer, "id").s;
        && (id in old(handle.layers) ==>
              && handle.layers == old(handle.layers)[id := old(handle.layers)[id].(layout := old(handle.layers)[id].layout["visibility" := Str("none")])]
              && !handle.layers[id].Visible())
        && (id !in old(handle.layers) ==> handle.layers == old(handle.layers))
      ensures Get(layer, "id").Str? && !longLived ==> handle.layers == old(handle.layers) - {Get(layer, "id").s}
      ensures !Get(layer, "id").Str? ==> handle.layers == old(handle.layers)
    {
      if !Get(layer, "id").Str? {
        return;
      }
      var id := Get(layer, "id").s;
      if longLived {
        handle.SetLayoutProperty(id, "visibility", Str("none"));
      } else {
        handle.RemoveLayer(id);
      }
    }
  }
}
