/**
  An abstract model of the mapbox-gl map handle the addon drives: the tables
  the addon's components query and change (sources, style layers, controls),
  the `hasLoaded` flag the map component stores on the handle, and the two
  run-loop queues whose entries target the handle (source removals deferred
  until after render, and the map's own removal deferred to the next tick).
  Rendering is not modelled; an operation on a missing id, which the library
  reports through an error event, leaves the tables as they were.
*/
module Mapbox {
  import opened Wrappers
  import opened Json

  /** A DOM element; only its identity matters. */
  class Element {
    constructor ()
    {
    }
  }

  /** A map control instance (navigation, geolocation, the map's own logo, ...). */
  class Control {
    /** The `idName` property the control component stores on the instance; `None` is null or undefined. */
    var idName: Option<string>
    /** Whether the control's container carries the `hide` class. */
    var hidden: bool

    constructor ()
      ensures idName == None && !hidden
    {
      idName := None;
      hidden := false;
    }
  }

  /** A value in the options passed to the map's constructor. */
  datatype MapOption = Plain(value: Json) | Container(element: Element)

  /** A style layer: its layout and paint properties and every other key of its specification. */
  datatype StyleLayer = StyleLayer(layout: map<string, Json>, paint: map<string, Json>, props: map<string, Json>)
  {
    /** The layer is drawn unless its `visibility` layout property is `none`. */
    predicate Visible()
    {
      !("visibility" in layout && layout["visibility"] == Str("none"))
    }

    function SourceName(): Json
    {
      if "source" in props then props["source"] else Undefined
    }

    /** `setLayerZoomRange`: a bound that is null or undefined is left as it was. */
    function WithZoomRange(minzoom: Json, maxzoom: Json): (l: StyleLayer)
      ensures l.layout == layout && l.paint == paint
      ensures l.props.Keys == props.Keys + (if Nullish(minzoom) then {} else {"minzoom"})
                                          + (if Nullish(maxzoom) then {} else {"maxzoom"})
      ensures "minzoom" in l.props && Nullish(minzoom) ==> l.props["minzoom"] == props["minzoom"]
      ensures !Nullish(minzoom) ==> l.props["minzoom"] == minzoom
      ensures "maxzoom" in l.props && Nullish(maxzoom) ==> l.props["maxzoom"] == props["maxzoom"]
      ensures !Nullish(maxzoom) ==> l.props["maxzoom"] == maxzoom
      ensures forall k :: k in props && k != "minzoom" && k != "maxzoom" ==> l.props[k] == props[k]
    {
      var p := if Nullish(minzoom) then props else props["minzoom" := minzoom];
      var q := if Nullish(maxzoom) then p else p["maxzoom" := maxzoom];
      this.(props := q)
    }
  }

  /** The style layer `addLayer` builds from a layer specification. */
  function LayerFromSpec(spec: map<string, Json>): StyleLayer
  {
    StyleLayer(Fields(Get(Obj(spec), "layout")), Fields(Get(Obj(spec), "paint")),
               map k | k in spec && k != "layout" && k != "paint" :: spec[k])
  }

  /** Some layer draws from the source `id`. */
  predicate UsedByLayer(layers: map<string, StyleLayer>, id: string)
  {
    exists l :: l in layers && layers[l].SourceName() == Str(id)
  }

  /** `removeSource(id)`: refused (an error event) while a layer still uses the source. */
  function RemoveSourceFrom(sources: map<string, map<string, Json>>, layers: map<string, StyleLayer>, id: string)
    : map<string, map<string, Json>>
  {
    if UsedByLayer(layers, id) then sources else sources - {id}
  }

  /** The effect of running the queued source removals `ids` in order. */
  function ApplySourceRemovals(sources: map<string, map<string, Json>>, layers: map<string, StyleLayer>, ids: seq<string>)
    : map<string, map<string, Json>>
    decreases |ids|
  {
    if ids == [] then sources
    else ApplySourceRemovals(RemoveSourceFrom(sources, layers, ids[0]), layers, ids[1..])
  }

  /**
    Running the queued removals removes exactly the queued sources that no
    layer uses, whatever their order: the table keeps every other source
    unchanged.
  */
  lemma {:induction false} SourceRemovalsApplied(sources: map<string, map<string, Json>>, layers: map<string, StyleLayer>, ids: seq<string>)
    ensures ApplySourceRemovals(sources, layers, ids)
         == sources - (set id | id in ids && !UsedByLayer(layers, id))
    decreases |ids|
  {
    var removed := set id | id in ids && !UsedByLayer(layers, id);
    if ids != [] {
      var rest := set id | id in ids[1..] && !UsedByLayer(layers, id);
      SourceRemovalsApplied(RemoveSourceFrom(sources, layers, ids[0]), layers, ids[1..]);
      assert ids == [ids[0]] + ids[1..];
      assert removed == rest + (if UsedByLayer(layers, ids[0]) then {} else {ids[0]});
      assert RemoveSourceFrom(sources, layers, ids[0]) - rest == sources - removed;
    } else {
      assert removed == {};
    }
  }

  /** Replacing an entry twice is replacing it once with the second value. */
  lemma UpdateTwice<K, V>(m: map<K, V>, k: K, a: V, b: V)
    ensures m[k := a][k := b] == m[k := b]
  {
  }

  /** Position of the first `x` in `s`; `|s|` when there is none. */
  function IndexOf<T(==)>(s: seq<T>, x: T): (i: nat)
    ensures i <= |s|
    ensures i < |s| ==> s[i] == x
    ensures forall j :: 0 <= j < i ==> s[j] != x
  {
    if s == [] then 0 else if s[0] == x then 0 else 1 + IndexOf(s[1..], x)
  }

  /** `removeControl(c)`: splice out the first occurrence of `c` (`indexOf` then `splice`). */
  function RemoveFirst<T(==)>(s: seq<T>, x: T): seq<T>
  {
    if s == [] then []
    else if s[0] == x then s[1..]
    else [s[0]] + RemoveFirst(s[1..], x)
  }

  /** RemoveFirst removes the first occurrence and nothing else; without one it changes nothing. */
  lemma {:induction false} RemoveFirstSplices<T>(s: seq<T>, x: T)
    ensures x !in s ==> RemoveFirst(s, x) == s
    ensures x in s ==> RemoveFirst(s, x) == s[..IndexOf(s, x)] + s[IndexOf(s, x) + 1..]
  {
    if s != [] && s[0] != x {
      RemoveFirstSplices(s[1..], x);
      assert s == [s[0]] + s[1..];
      assert x in s ==> s[..IndexOf(s, x)] == [s[0]] + s[1..][..IndexOf(s[1..], x)];
    }
  }

  class MapHandle {
    /** `map._container`: the element the map was constructed in. */
    const container: Element
    const options: map<string, MapOption>
    /** Set by the map component once a long-lived map has loaded. */
    var hasLoaded: bool
    /** `map.remove()` has run. */
    var removed: bool
    var sources: map<string, map<string, Json>>
    var layers: map<string, StyleLayer>
    /** `map._controls`, in the order they were added. */
    var controls: seq<Control>
    /** Source ids whose removal is queued for after the current render. */
    var afterRender: seq<string>
    /** `map.remove` is queued for the next run loop. */
    var removeScheduled: bool

    /** A newly constructed map: not loaded, no entries in its tables, nothing queued. */
    predicate Initial()
      reads this
    {
      && !hasLoaded && !removed && !removeScheduled
      && sources == map[] && layers == map[] && controls == [] && afterRender == []
    }

    constructor (options: map<string, MapOption>)
      requires "container" in options && options["container"].Container?
      ensures container == options["container"].element && this.options == options
      ensures Initial()
    {
      container := options["container"].element;
      this.options := options;
      hasLoaded, removed, removeScheduled := false, false, false;
      sources, layers, controls, afterRender := map[], map[], [], [];
    }

    /** `addSource(id, spec)`; the library throws on a duplicate id, which every caller checks first. */
    method AddSource(id: string, spec: map<string, Json>)
      requires id !in sources
      modifies this`sources
      ensures sources == old(sources)[id := spec]
    {
      sources := sources[id := spec];
    }

    /** `getSource(id).setData(data)`. */
    method SetData(id: string, data: Json)
      requires id in sources
      modifies this`sources
      ensures sources == old(sources)[id := old(sources)[id]["data" := data]]
    {
      sources := sources[id := sources[id]["data" := data]];
    }

    /** `getSource(id).setCoordinates(coordinates)` (image and video sources). */
    method SetCoordinates(id: string, coordinates: Json)
      requires id in sources
      modifies this`sources
      ensures sources == old(sources)[id := old(sources)[id]["coordinates" := coordinates]]
    {
      sources := sources[id := sources[id]["coordinates" := coordinates]];
    }

    method RemoveSource(id: string)
      modifies this`sources
      ensures sources == RemoveSourceFrom(old(sources), layers, id)
    {
      if !UsedByLayer(layers, id) {
        sources := sources - {id};
      }
    }

    /**
      Queue `removeSource(id)` to run after the current render: this map's
      view of the run loop's after-render queue, as `IdsFor` projects it
      from MapboxGlSource.Schedule.
    */
    method QueueSourceRemoval(id: string)
      modifies this`afterRender
      ensures afterRender == old(afterRender) + [id]
    {
      afterRender := afterRender + [id];
    }

    /** The run loop's after-render queue runs: every queued removal, in order. */
    method FlushAfterRender()
      modifies this`sources, this`afterRender
      ensures sources == ApplySourceRemovals(old(sources), layers, old(afterRender))
      ensures afterRender == []
    {
      var queued := afterRender;
      var i := 0;
      while i < |queued|
        invariant 0 <= i <= |queued|
        invariant ApplySourceRemovals(sources, layers, queued[i..]) == ApplySourceRemovals(old(sources), layers, queued)
      {
        assert queued[i..][1..] == queued[i + 1..];
        RemoveSource(queued[i]);
        i := i + 1;
      }
      afterRender := [];
    }

    /** `addLayer(spec)`; the library refuses a duplicate id, which every caller checks first. */
    method AddLayer(id: string, spec: map<string, Json>)
      requires id !in layers
      modifies this`layers
      ensures layers == old(layers)[id := LayerFromSpec(spec)]
    {
      layers := layers[id := LayerFromSpec(spec)];
    }

    method SetLayoutProperty(id: string, name: string, value: Json)
      modifies this`layers
      ensures id in old(layers) ==> layers == old(layers)[id := old(layers)[id].(layout := old(layers)[id].layout[name := value])]
      ensures id !in old(layers) ==> layers == old(layers)
    {
      if id in layers {
        layers := layers[id := layers[id].(layout := layers[id].layout[name := value])];
      }
    }

    method SetPaintProperty(id: string, name: string, value: Json)
      modifies this`layers
      ensures id in old(layers) ==> layers == old(layers)[id := old(layers)[id].(paint := old(layers)[id].paint[name := value])]
      ensures id !in old(layers) ==> layers == old(layers)
    {
      if id in layers {
        layers := layers[id := layers[id].(paint := layers[id].paint[name := value])];
      }
    }

    method SetFilter(id: string, filter: Json)
      modifies this`layers
      ensures id in old(layers) ==> layers == old(layers)[id := old(layers)[id].(props := old(layers)[id].props["filter" := filter])]
      ensures id !in old(layers) ==> layers == old(layers)
    {
      if id in layers {
        layers := layers[id := layers[id].(props := layers[id].props["filter" := filter])];
      }
    }

    method SetLayerZoomRange(id: string, minzoom: Json, maxzoom: Json)
      modifies this`layers
      ensures id in old(layers) ==> layers == old(layers)[id := old(layers)[id].WithZoomRange(minzoom, maxzoom)]
      ensures id !in old(layers) ==> layers == old(layers)
    {
      if id in layers {
        layers := layers[id := layers[id].WithZoomRange(minzoom, maxzoom)];
      }
    }

    method RemoveLayer(id: string)
      modifies this`layers
      ensures layers == old(layers) - {id}
    {
      layers := layers - {id};
    }

    /** `addControl(control, position)`; the position only places the control's container. */
    method AddControl(control: Control, position: Json)
      modifies this`controls
      ensures controls == old(controls) + [control]
    {
      controls := controls + [control];
    }

    method RemoveControl(control: Control)
      modifies this`controls
      ensures controls == RemoveFirst(old(controls), control)
    {
      controls := RemoveFirst(controls, control);
    }

    /** Queue `map.remove` for the next run loop. */
    method ScheduleRemove()
      modifies this`removeScheduled
      ensures removeScheduled
    {
      removeScheduled := true;
    }

    /** The next run loop starts: a queued `map.remove` runs. */
    method FlushNextTick()
      modifies this`removed, this`removeScheduled
      ensures removed == (old(removed) || old(removeScheduled))
      ensures !removeScheduled
    {
      if removeScheduled {
        removed := true;
      }
      removeScheduled := false;
    }
  }
}
