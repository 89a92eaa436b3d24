/**
  The source component: adds its source to the map (a geojson source without
  data gets an empty FeatureCollection) or, when the map already has it,
  optionally refreshes its data; pushes new data or coordinates on update; and
  queues the source's removal for after render unless it is long-lived.
*/
module MapboxGlSource {
  import opened Wrappers
  import opened Json
  import opened Mapbox

  /**
    `sourceId`: the value a caller assigned, if any; otherwise `idName` when it
    is truthy, otherwise the component's own guid.
  */
  function SourceId(given: Option<string>, idName: Option<string>, guid: string): (id: string)
    ensures given.Some? ==> id == given.value
    ensures given.None? && TruthyName(idName) ==> id == idName.value
    ensures given.None? && !TruthyName(idName) ==> id == guid
  {
    if given.Some? then given.value
    else if TruthyName(idName) then idName.value
    else guid
  }

  /** `{type: 'FeatureCollection', features: []}`. */
  const EmptyFeatureCollection: Json := Obj(map["type" := Str("FeatureCollection"), "features" := Arr([])])

  /** `options.type == 'geojson' && !options.data`. */
  predicate NeedsPlaceholder(options: map<string, Json>)
  {
    Get(Obj(options), "type") == Str("geojson") && !Truthy(Get(Obj(options), "data"))
  }

  /**
    The options `init` adds a new source with: a geojson source always has
    data, the empty FeatureCollection standing in for missing data; nothing
    else changes.
  */
  function AddedOptions(options: map<string, Json>): (r: map<string, Json>)
    ensures Get(Obj(r), "type") == Str("geojson") ==> Truthy(Get(Obj(r), "data"))
    ensures NeedsPlaceholder(options) ==> r.Keys == options.Keys + {"data"} && r["data"] == EmptyFeatureCollection
    ensures !NeedsPlaceholder(options) ==> r == options
    ensures forall k :: k in options && k != "data" ==> r[k] == options[k]
  {
    if NeedsPlaceholder(options) then options["data" := EmptyFeatureCollection] else options
  }

  /** `!skipSetDataOnInit && options.data && options.data.features`. */
  predicate SetsDataOnInit(skipSetDataOnInit: bool, options: map<string, Json>)
  {
    !skipSetDataOnInit && Truthy(Get(Obj(options), "data")) && Truthy(Get(Get(Obj(options), "data"), "features"))
  }

  /**
    The assertion of `init`, and the TypeErrors of reading a property of null
    options or of calling a method on a source the map does not have.
  */
  datatype SourceError = MissingIdName | NoOptions | NoSource

  class SourceComponent {
    const handle: MapHandle
    const longLived: bool
    const idName: Option<string>
    const sourceId: string
    const skipSetDataOnInit: bool
    /** `options`; `None` is null or undefined. */
    var options: Option<map<string, Json>>

    constructor (handle: MapHandle, longLived: bool, idName: Option<string>, sourceId: string,
                 skipSetDataOnInit: bool, options: Option<map<string, Json>>)
      ensures this.handle == handle && this.longLived == longLived && this.idName == idName
      ensures this.sourceId == sourceId && this.skipSetDataOnInit == skipSetDataOnInit && this.options == options
    {
      this.handle, this.longLived, this.idName := handle, longLived, idName;
      this.sourceId, this.skipSetDataOnInit, this.options := sourceId, skipSetDataOnInit, options;
    }

    /**
      `init`. A long-lived source needs an `idName`. A source the map lacks is
      added (with the placeholder data when needed); a source the map has is
      never added again, and its data is replaced only when `SetsDataOnInit`
      holds. No other source changes.
    */
    static method Init(handle: MapHandle, longLived: bool, idName: Option<string>, givenId: Option<string>,
                       guid: string, skipSetDataOnInit: bool, options: Option<map<string, Json>>)
      returns (c: SourceComponent?, err: Option<SourceError>)
      modifies handle`sources
      ensures err.Some? <==> c == null
      ensures err.Some? ==> handle.sources == old(handle.sources)
      ensures longLived && !TruthyName(idName) ==> err == Some(MissingIdName)
      ensures !longLived || TruthyName(idName) ==>
        var id := SourceId(givenId, idName, guid);
        var was := old(handle.sources);
        && (id !in was && options.None? ==> err == Some(NoOptions))
        && (id !in was && options.Some? ==>
              && err.None? && c.sourceId == id && c.options == Some(AddedOptions(options.value))
              && handle.sources == was[id := AddedOptions(options.value)])
        && (id in was && !skipSetDataOnInit && options.None? ==> err == Some(NoOptions))
        && (id in was && (skipSetDataOnInit || options.Some?) ==> err.None? && c.sourceId == id && c.options == options)
        && (id in was && options.Some? && SetsDataOnInit(skipSetDataOnInit, options.value) ==>
              handle.sources == was[id := was[id]["data" := Get(Obj(options.value), "data")]])
        && (id in was && !(options.Some? && SetsDataOnInit(skipSetDataOnInit, options.value)) ==>
              handle.sources == was)
      ensures c != null ==>
        fresh(c) && c.handle == handle && c.longLived == longLived && c.idName == idName
        && c.skipSetDataOnInit == skipSetDataOnInit
    {
      if longLived && !TruthyName(idName) {
        return null, Some(MissingIdName);
      }
      var id := SourceId(givenId, idName, guid);
      if id !in handle.sources {
        if options.None? {
          return null, Some(NoOptions);
        }
        var added := AddedOptions(options.value);
        c := new SourceComponent(handle, longLived, idName, id, skipSetDataOnInit, Some(added));
        handle.AddSource(id, added);
      } else {
        if !skipSetDataOnInit && options.None? {
          return null, Some(NoOptions);
        }
        c := new SourceComponent(handle, longLived, idName, id, skipSetDataOnInit, options);
        if options.Some? && SetsDataOnInit(skipSetDataOnInit, options.value) {
          handle.SetData(id, Get(Obj(options.value), "data"));
        }
      }
      err := None;
    }

    /**
      `didUpdateAttrs` with new `options`: nothing when they are null; new data
      when there is data; new coordinates only when there is no data but there
      are coordinates. Fails when the map no longer has the source.
    */
    method DidUpdateAttrs(newOptions: Option<map<string, Json>>) returns (err: Option<SourceError>)
      modifies this`options, handle`sources
      ensures options == newOptions
      ensures newOptions.None? ==> err.None? && handle.sources == old(handle.sources)
      ensures newOptions.Some? ==>
        var data := Get(Obj(newOptions.value), "data");
        var coordinates := Get(Obj(newOptions.value), "coordinates");
        var was := old(handle.sources);
        && (Truthy(data) && sourceId in was ==> err.None? && handle.sources == was[sourceId := was[sourceId]["data" := data]])
        && (!Truthy(data) && Truthy(coordinates) && sourceId in was ==>
              err.None? && handle.sources == was[sourceId := was[sourceId]["coordinates" := coordinates]])
        && ((Truthy(data) || Truthy(coordinates)) && sourceId !in was ==> err == Some(NoSource) && handle.sources == was)
        && (!Truthy(data) && !Truthy(coordinates) ==> err.None? && handle.sources == was)
    {
      options := newOptions;
      err := None;
      if newOptions.Some? {
        var o := Obj(newOptions.value);
        if Truthy(Get(o, "data")) {
          if sourceId !in handle.sources {
            return Some(NoSource);
          }
          handle.SetData(sourceId, Get(o, "data"));
        } else if Truthy(Get(o, "coordinates")) {
          if sourceId !in handle.sources {
            return Some(NoSource);
          }
          handle.SetCoordinates(sourceId, Get(o, "coordinates"));
        }
      }
    }

    /**
      `willDestroy`: a source that is not long-lived has its removal queued
      for after render, behind any queued before it; a long-lived source stays
      registered. The map is only changed by the queue (see Schedule, which
      corrects the argument-replacing ScheduleOnce).
    */
    method WillDestroy()
      modifies handle`afterRender
      ensures !longLived ==> handle.afterRender == old(handle.afterRender) + [sourceId]
      ensures longLived ==> handle.afterRender == old(handle.afterRender)
    {
      if !longLived {
        handle.QueueSourceRemoval(sourceId);
      }
    }
  }

  /** An entry of the run loop's after-render queue: `removeSource(id)` called on `target`. */
  datatype Removal = Removal(target: MapHandle, id: string)

  /** The ids whose removal the queue holds for `target`, in queue order. */
  function IdsFor(q: seq<Removal>, target: MapHandle): seq<string>
  {
    if q == [] then []
    else (if q[0].target == target then [q[0].id] else []) + IdsFor(q[1..], target)
  }

  lemma {:induction false} IdsForAppend(q: seq<Removal>, r: seq<Removal>, target: MapHandle)
    ensures IdsFor(q + r, target) == IdsFor(q, target) + IdsFor(r, target)
    decreases |q|
  {
    if q == [] {
      assert q + r == r;
    } else {
      assert (q + r)[1..] == q[1..] + r;
      IdsForAppend(q[1..], r, target);
    }
  }

  /** At most one queued entry per target, which is how `scheduleOnce` with one method keeps its queue. */
  ghost predicate OncePerTarget(q: seq<Removal>)
  {
    forall i, j :: 0 <= i < j < |q| ==> q[i].target != q[j].target
  }

  /**
    As the source schedules removal: `scheduleOnce('afterRender', map,
    map.removeSource, id)`. The run loop keeps one entry per target and
    method; when the map already has a queued `removeSource`, the new id
    replaces the old one's argument in place.
  */
  function ScheduleOnce(q: seq<Removal>, target: MapHandle, id: string): (r: seq<Removal>)
    ensures |r| == |q| || r == q + [Removal(target, id)]
    decreases |q|
  {
    if q == [] then [Removal(target, id)]
    else if q[0].target == target then [Removal(target, id)] + q[1..]
    else [q[0]] + ScheduleOnce(q[1..], target, id)
  }

  /** With `scheduleOnce`, a map's queue holds only the last id scheduled for it. */
  lemma {:induction false} ScheduleOnceKeepsLast(q: seq<Removal>, target: MapHandle, id: string)
    requires OncePerTarget(q)
    ensures IdsFor(ScheduleOnce(q, target, id), target) == [id]
    decreases |q|
  {
    var r := ScheduleOnce(q, target, id);
    if q == [] {
      assert r[1..] == [];
    } else if q[0].target == target {
      assert r[1..] == q[1..];
      NoOtherEntry(q, target);
    } else {
      assert OncePerTarget(q[1..]) by {
        forall i, j | 0 <= i < j < |q[1..]| ensures q[1..][i].target != q[1..][j].target {
          assert q[1..][i] == q[i + 1] && q[1..][j] == q[j + 1];
        }
      }
      ScheduleOnceKeepsLast(q[1..], target, id);
      assert r[1..] == ScheduleOnce(q[1..], target, id);
    }
  }

  /** `ScheduleOnce` keeps at most one entry per map. */
  lemma {:induction false} ScheduleOnceOncePerTarget(q: seq<Removal>, target: MapHandle, id: string)
    requires OncePerTarget(q)
    ensures OncePerTarget(ScheduleOnce(q, target, id))
    decreases |q|
  {
    var r := ScheduleOnce(q, target, id);
    if q == [] {
    } else if q[0].target == target {
      forall i, j | 0 <= i < j < |r| ensures r[i].target != r[j].target {
        assert r[j] == q[j];
        if i > 0 { assert r[i] == q[i]; }
      }
    } else {
      assert OncePerTarget(q[1..]) by {
        forall i, j | 0 <= i < j < |q[1..]| ensures q[1..][i].target != q[1..][j].target {
          assert q[1..][i] == q[i + 1] && q[1..][j] == q[j + 1];
        }
      }
      ScheduleOnceOncePerTarget(q[1..], target, id);
      ScheduleOnceTargets(q[1..], target, id);
      forall i, j | 0 <= i < j < |r| ensures r[i].target != r[j].target {
        if i == 0 {
          assert r[j] in ScheduleOnce(q[1..], target, id);
        } else {
          assert r[i] == r[1..][i - 1] && r[j] == r[1..][j - 1];
        }
      }
    }
  }

  /** Every entry `ScheduleOnce` leaves is an old entry or the new one. */
  lemma {:induction false} ScheduleOnceTargets(q: seq<Removal>, target: MapHandle, id: string)
    ensures forall e :: e in ScheduleOnce(q, target, id) ==> e in q || e == Removal(target, id)
    decreases |q|
  {
    if q != [] && q[0].target != target {
      ScheduleOnceTargets(q[1..], target, id);
    }
  }

  /** In a queue with one entry per target, no entry after the first for `target` is for `target`. */
  lemma {:induction false} NoOtherEntry(q: seq<Removal>, target: MapHandle)
    requires OncePerTarget(q) && q != [] && q[0].target == target
    ensures IdsFor(q[1..], target) == []
  {
    NoEntryFor(q[1..], target);
  }

  lemma {:induction false} NoEntryFor(q: seq<Removal>, target: MapHandle)
    requires forall i :: 0 <= i < |q| ==> q[i].target != target
    ensures IdsFor(q, target) == []
    decreases |q|
  {
    if q != [] {
      NoEntryFor(q[1..], target);
    }
  }

  /**
    Two sources of one map destroyed in the same render pass, as written: the
    first removal is lost, so after the flush the first source is still in the
    map although nothing uses it.
  */
  lemma ScheduleOnceLosesFirstRemoval(m: MapHandle, sources: map<string, map<string, Json>>, layers: map<string, StyleLayer>, a: string, b: string)
    requires a != b && a in sources
    ensures IdsFor(ScheduleOnce(ScheduleOnce([], m, a), m, b), m) == [b]
    ensures a in ApplySourceRemovals(sources, layers, IdsFor(ScheduleOnce(ScheduleOnce([], m, a), m, b), m))
  {
    ScheduleOnceKeepsLast([], m, a);
    ScheduleOnceOncePerTarget([], m, a);
    ScheduleOnceKeepsLast(ScheduleOnce([], m, a), m, b);
    SourceRemovalsApplied(sources, layers, [b]);
  }

  /**
    Corrected scheduling, which WillDestroy uses: every removal is queued
    behind the earlier ones. The run loop's queue here holds every map's
    removals; the per-map view `IdsFor(Schedule(q, m, id), m)` is exactly
    what `m.QueueSourceRemoval(id)` leaves in `m.afterRender` when
    `m.afterRender == IdsFor(q, m)`, so what is proved here about Schedule
    holds of the method WillDestroy calls, and of the flush that drains it.
  */
  function Schedule(q: seq<Removal>, target: MapHandle, id: string): (r: seq<Removal>)
    ensures IdsFor(r, target) == IdsFor(q, target) + [id]
  {
    IdsForAppend(q, [Removal(target, id)], target);
    q + [Removal(target, id)]
  }

  /** Scheduling a removal on one map leaves every other map's queue as it was. */
  lemma ScheduleLeavesOthers(q: seq<Removal>, target: MapHandle, other: MapHandle, id: string)
    requires other != target
    ensures IdsFor(Schedule(q, target, id), other) == IdsFor(q, other)
  {
    IdsForAppend(q, [Removal(target, id)], other);
  }

  /**
    With the corrected scheduling, sources destroyed in one pass are all
    removed by the flush, as long as no layer still uses them.
  */
  lemma ScheduleRemovesEvery(m: MapHandle, sources: map<string, map<string, Json>>, layers: map<string, StyleLayer>, a: string, b: string)
    requires !UsedByLayer(layers, a) && !UsedByLayer(layers, b)
    ensures IdsFor(Schedule(Schedule([], m, a), m, b), m) == [a, b]
    ensures ApplySourceRemovals(sources, layers, IdsFor(Schedule(Schedule([], m, a), m, b), m)) == sources - {a, b}
  {
    assert IdsFor([], m) == [];
    SourceRemovalsApplied(sources, layers, [a, b]);
    assert (set id | id in [a, b] && !UsedByLayer(layers, id)) == {a, b};
  }
}
