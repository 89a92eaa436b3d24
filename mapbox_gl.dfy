/**
  The map component: checks its configuration at `init`, obtains a map from
  the maps service after render, reuses a cached map that has already loaded
  (`mapReload`) or waits for the map's first `load` (`mapLoaded`, and caching
  when long-lived), and schedules the map's removal on destroy unless it is
  long-lived.
*/
module MapboxGl {
  import opened Wrappers
  import opened Json
  import opened Mapbox
  import opened MapsService

  /** The assertions `init` makes. */
  datatype ConfigError = MissingMapId | MissingConfig | AccessTokenNotString

  /**
    The first assertion of `init` that fails, if any: a long-lived map needs a
    `mapId`, and the `mapbox-gl` block of the environment must exist and hold
    an `accessToken` string.
  */
  function CheckConfig(longLived: bool, mapId: Option<string>, config: Json): (e: Option<ConfigError>)
    ensures e.None? <==> (!longLived || TruthyName(mapId)) && Truthy(config) && Get(config, "accessToken").Str?
    ensures longLived && !TruthyName(mapId) ==> e == Some(MissingMapId)
    ensures (!longLived || TruthyName(mapId)) && !Truthy(config) ==> e == Some(MissingConfig)
    ensures (!longLived || TruthyName(mapId)) && Truthy(config) && !Get(config, "accessToken").Str? ==> e == Some(AccessTokenNotString)
  {
    if longLived && !TruthyName(mapId) then Some(MissingMapId)
    else if !Truthy(config) then Some(MissingConfig)
    else if !Get(config, "accessToken").Str? then Some(AccessTokenNotString)
    else None
  }

  /**
    `_onReload` calls `this.mapReload(map)`, which has no default: without the
    action the call throws a TypeError.
  */
  datatype SetupError = NoReloadAction

  /** What the component does to, or announces about, a map, in order. */
  datatype Event =
    | MapLoaded(m: MapHandle)     // the `mapLoaded` action
    | MapReloaded(m: MapHandle)   // the `mapReload` action
    | ListensForLoad(m: MapHandle) // `map.once('load', ...)`
    | Resized(m: MapHandle)       // `map.resize()`

  class MapComponent {
    const longLived: bool
    const mapId: Option<string>
    const initOptions: Json
    /** The `mapbox-gl` block of the environment configuration. */
    const config: Json
    /** `MapboxGl.supported()`, read at `init`. */
    const glSupported: bool
    /** A `mapReload` action was passed (`mapLoaded` defaults to a no-op, `mapReload` does not). */
    const reloadAction: bool
    /** `this.map`: null until the map has loaded or been reused. */
    var handle: MapHandle?
    /** `_setup` is queued for after render. */
    var setupScheduled: bool
    /** The map whose one-shot `load` listener is bound to this component, if any. */
    var loadListener: MapHandle?
    var events: seq<Event>

    predicate Configured()
    {
      CheckConfig(longLived, mapId, config).None?
    }

    constructor (longLived: bool, mapId: Option<string>, initOptions: Json, config: Json, glSupported: bool, reloadAction: bool)
      requires CheckConfig(longLived, mapId, config).None?
      ensures this.longLived == longLived && this.mapId == mapId && this.initOptions == initOptions
      ensures this.config == config && this.glSupported == glSupported && this.reloadAction == reloadAction
      ensures Configured()
      ensures handle == null && !setupScheduled && loadListener == null && events == []
    {
      this.longLived, this.mapId, this.initOptions := longLived, mapId, initOptions;
      this.config, this.glSupported, this.reloadAction := config, glSupported, reloadAction;
      handle, setupScheduled, loadListener, events := null, false, null, [];
    }

    /** `init`: the component exists only when every assertion holds. */
    static method Init(longLived: bool, mapId: Option<string>, initOptions: Json, config: Json, glSupported: bool, reloadAction: bool)
      returns (c: MapComponent?, err: Option<ConfigError>)
      ensures err == CheckConfig(longLived, mapId, config)
      ensures err.Some? <==> c == null
      ensures c != null ==> fresh(c) && c.Configured() && c.handle == null && c.events == [] && !c.setupScheduled
      ensures c != null ==> c.longLived == longLived && c.mapId == mapId && c.initOptions == initOptions
      ensures c != null ==> c.config == config && c.glSupported == glSupported && c.reloadAction == reloadAction
      ensures c != null ==> c.loadListener == null
    {
      err := CheckConfig(longLived, mapId, config);
      if err.Some? {
        c := null;
      } else {
        c := new MapComponent(longLived, mapId, initOptions, config, glSupported, reloadAction);
      }
    }

    /** `didInsertElement`: setup is queued only when GL is supported. */
    method DidInsertElement()
      modifies this`setupScheduled
      ensures setupScheduled == (old(setupScheduled) || glSupported)
    {
      if glSupported {
        setupScheduled := true;
      }
    }

    /** The after-render queue runs: a queued `_setup` runs once, and its TypeError, if any, propagates. */
    method FlushAfterRender(service: Service) returns (err: Option<SetupError>)
      requires Configured() && service.Valid()
      modifies this`setupScheduled, this`handle, this`loadListener, this`events
      ensures !setupScheduled
      ensures !old(setupScheduled) ==> err.None? && handle == old(handle) && loadListener == old(loadListener) && events == old(events)
      ensures old(setupScheduled) ==> SetupDone(service, old(handle), old(loadListener), old(events), err)
      ensures old(setupScheduled) && CacheKey(mapId) !in service.cachedMaps ==>
        fresh(loadListener) && loadListener.Initial()
    {
      err := None;
      if setupScheduled {
        setupScheduled := false;
        err := Setup(service);
      }
    }

    /**
      The outcome of `_setup`: on a cache hit the cached map is reused and
      `mapReload` fires at once, or, without that action, `_setup` throws
      before `map` is set and before `resize`; on a miss a new map is created
      and a load listener registered. `resize` follows on both paths that
      complete.
    */
    ghost predicate SetupDone(service: Service, oldHandle: MapHandle?, oldListener: MapHandle?, oldEvents: seq<Event>,
                              err: Option<SetupError>)
      reads this, service
    {
      var key := CacheKey(mapId);
      if key in service.cachedMaps && !reloadAction then
        err == Some(NoReloadAction) && handle == oldHandle && loadListener == oldListener && events == oldEvents
      else if key in service.cachedMaps then
        var m := service.cachedMaps[key].handle;
        err.None? && handle == m && loadListener == oldListener && events == oldEvents + [MapReloaded(m), Resized(m)]
      else
        && err.None? && handle == oldHandle && loadListener != null
        && events == oldEvents + [ListensForLoad(loadListener), Resized(loadListener)]
    }

    /** `_setup`. */
    method Setup(service: Service) returns (err: Option<SetupError>)
      requires Configured() && service.Valid()
      modifies this`handle, this`loadListener, this`events
      ensures SetupDone(service, old(handle), old(loadListener), old(events), err)
      ensures CacheKey(mapId) !in service.cachedMaps ==>
        && fresh(loadListener) && loadListener.Initial()
        && loadListener.options == MapOptions(config, initOptions, loadListener.container)
    {
      var e := service.GetMap(mapId, initOptions, longLived, config);
      var m := e.handle;
      err := None;
      if m.hasLoaded {
        err := OnReload(m);
        if err.Some? {
          return;
        }
      } else {
        loadListener := m;
        events := events + [ListensForLoad(m)];
      }
      events := events + [Resized(m)];
    }

    /** The map fires its `load` event; the `once` listener, if it is bound to that map, runs `_onLoad`. */
    method LoadEvent(m: MapHandle, service: Service)
      requires service.Valid()
      modifies this`handle, this`loadListener, this`events, m`hasLoaded, service`cachedMaps
      ensures service.Valid()
      ensures old(loadListener) == m ==> loadListener == null && LoadDone(m, service, old(events), old(m.hasLoaded), old(service.cachedMaps))
      ensures old(loadListener) != m ==>
        && handle == old(handle) && loadListener == old(loadListener) && events == old(events)
        && m.hasLoaded == old(m.hasLoaded) && service.cachedMaps == old(service.cachedMaps)
    {
      if loadListener == m {
        loadListener := null;
        OnLoad(m, service);
      }
    }

    /**
      The outcome of `_onLoad`: `mapLoaded` fires and `map` is set; only a
      long-lived component flags the map as loaded and caches it, with its own
      container, under its id.
    */
    ghost predicate LoadDone(m: MapHandle, service: Service, oldEvents: seq<Event>, oldLoaded: bool, oldCache: map<string, Entry>)
      reads this, m, service
    {
      && handle == m && events == oldEvents + [MapLoaded(m)]
      && (longLived ==> m.hasLoaded && service.cachedMaps == oldCache[CacheKey(mapId) := Entry(m.container, m)])
      && (!longLived ==> m.hasLoaded == oldLoaded && service.cachedMaps == oldCache)
    }

    /** `_onLoad`. */
    method OnLoad(m: MapHandle, service: Service)
      requires service.Valid()
      modifies this`handle, this`events, m`hasLoaded, service`cachedMaps
      ensures service.Valid()
      ensures LoadDone(m, service, old(events), old(m.hasLoaded), old(service.cachedMaps))
    {
      events := events + [MapLoaded(m)];
      handle := m;
      if longLived {
        m.hasLoaded := true;
        service.cachedMaps := service.cachedMaps[CacheKey(mapId) := Entry(m.container, m)];
      }
    }

    /** `_onReload`: `mapReload` fires and `map` is set; without the action it throws first. */
    method OnReload(m: MapHandle) returns (err: Option<SetupError>)
      modifies this`handle, this`events
      ensures reloadAction ==> err.None? && handle == m && events == old(events) + [MapReloaded(m)]
      ensures !reloadAction ==> err == Some(NoReloadAction) && handle == old(handle) && events == old(events)
    {
      if !reloadAction {
        return Some(NoReloadAction);
      }
      events := events + [MapReloaded(m)];
      handle := m;
      err := None;
    }

    /**
      `willDestroy`: the map's removal is queued for the next run loop only
      when the component is not long-lived and the map has loaded or been
      reused; a long-lived map, or one whose load never completed, stays.
    */
    method WillDestroy()
      modifies (if handle == null then {} else {handle})`removeScheduled
      ensures handle != null ==> handle.removeScheduled == (old(handle.removeScheduled) || !longLived)
    {
      if !longLived && handle != null {
        handle.ScheduleRemove();
      }
    }
  }

  /**
    A long-lived map over a remount: the first component creates the map and
    caches it once the map has loaded; after that component is destroyed, a
    second component with the same `mapId` reuses that very map at setup,
    announces `mapReload` without waiting for a load, and the map is never
    queued for removal. A second component without a `mapReload` action
    fails at setup and never holds the map.
  */
  method LongLivedRemount(service: Service, mapId: string, initOptions: Json, config: Json, reloadAction: bool)
      returns (first: MapComponent, second: MapComponent, err: Option<SetupError>)
    requires service.Valid() && CacheKey(Some(mapId)) !in service.cachedMaps
    requires CheckConfig(true, Some(mapId), config).None?
    modifies service`cachedMaps
    ensures first.handle != null
    ensures reloadAction ==> err.None? && second.handle == first.handle
    ensures reloadAction ==> second.events == [MapReloaded(first.handle), Resized(first.handle)]
    ensures !reloadAction ==> err == Some(NoReloadAction) && second.handle == null && second.events == []
    ensures !first.handle.removeScheduled && first.handle.hasLoaded
    ensures service.cachedMaps == old(service.cachedMaps)[mapId := Entry(first.handle.container, first.handle)]
  {
    first := new MapComponent(true, Some(mapId), initOptions, config, true, false);
    first.DidInsertElement();
    err := first.FlushAfterRender(service);
    var m := first.loadListener;
    assert fresh(m) && m.Initial();
    first.LoadEvent(m, service);
    assert first.handle == m && m.hasLoaded && !m.removeScheduled;
    assert service.cachedMaps == old(service.cachedMaps)[mapId := Entry(m.container, m)];
    first.WillDestroy();
    assert service.Valid();
    second := new MapComponent(true, Some(mapId), initOptions, config, true, reloadAction);
    second.DidInsertElement();
    err := second.FlushAfterRender(service);
    assert reloadAction ==> second.handle == m;
  }
}
