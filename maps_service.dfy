/**
  The maps service: a process-wide cache of `{element, map}` pairs keyed by
  map id, and the construction of a new map bound to a new element.
*/
module MapsService {
  import opened Wrappers
  import opened Json
  import opened Mapbox

  /** A cached map (`{element, map}`): the map handle and the element it renders into. */
  datatype Entry = Entry(element: Element, handle: MapHandle)

  /** The key `get('cachedMaps.' + mapId)` reads: an unset map id is spelt "undefined". */
  function CacheKey(mapId: Option<string>): (k: string)
    ensures mapId.Some? ==> k == mapId.value
    ensures mapId.None? ==> k == "undefined"
  {
    match mapId
    case Some(id) => id
    case None => "undefined"
  }

  /**
    The options `_createMap` constructs a map with: the `map` defaults of the
    mapbox-gl configuration overridden key by key by `initOptions`, and
    `container` always the new element, whatever either of them held.
  */
  function MapOptions(config: Json, initOptions: Json, element: Element): (o: map<string, MapOption>)
    ensures o.Keys == OwnKeys(Get(config, "map")) + OwnKeys(initOptions) + {"container"}
    ensures o["container"] == Container(element)
    ensures forall k :: k in OwnKeys(initOptions) && k != "container" ==> o[k] == Plain(Get(initOptions, k))
    ensures forall k :: k in OwnKeys(Get(config, "map")) && k !in OwnKeys(initOptions) && k != "container"
                    ==> o[k] == Plain(Get(Get(config, "map"), k))
  {
    var merged := Overlay(Get(config, "map"), initOptions);
    (map k | k in merged :: Plain(merged[k]))["container" := Container(element)]
  }

  class Service {
    /** `cachedMaps`: map id to cached pair. */
    var cachedMaps: map<string, Entry>

    /** Every cached map has loaded and is cached with its own container. */
    ghost predicate Valid()
      reads this, set k | k in cachedMaps :: cachedMaps[k].handle
    {
      forall k :: k in cachedMaps ==>
        cachedMaps[k].element == cachedMaps[k].handle.container && cachedMaps[k].handle.hasLoaded
    }

    /** `init`: the cache starts empty. */
    constructor ()
      ensures cachedMaps == map[]
      ensures Valid()
    {
      cachedMaps := map[];
    }

    /**
      `getMap`: the cached pair on a hit, a new map on a miss. It never changes
      the cache (there is no `modifies` clause); `longLived` has no effect.
      `config` is the `mapbox-gl` block of the environment, which the map
      component has checked before it gets here.
    */
    method GetMap(mapId: Option<string>, initOptions: Json, longLived: bool, config: Json) returns (e: Entry)
      requires !Nullish(config)
      ensures CacheKey(mapId) in cachedMaps ==> e == cachedMaps[CacheKey(mapId)]
      ensures CacheKey(mapId) !in cachedMaps ==>
        && fresh(e.element) && fresh(e.handle) && e.handle.Initial()
        && e.handle.container == e.element
        && e.handle.options == MapOptions(config, initOptions, e.element)
    {
      var key := CacheKey(mapId);
      if key in cachedMaps {
        e := cachedMaps[key];
      } else {
        e := CreateMap(initOptions, longLived, config);
      }
    }

    /** `_createMap`: a new element and a new map whose container is that element. */
    method CreateMap(initOptions: Json, longLived: bool, config: Json) returns (e: Entry)
      requires !Nullish(config)
      ensures fresh(e.element) && fresh(e.handle) && e.handle.Initial()
      ensures e.handle.container == e.element
      ensures e.handle.options == MapOptions(config, initOptions, e.element)
    {
      var element := new Element();
      var options := MapOptions(config, initOptions, element);
      var m := new MapHandle(options);
      e := Entry(element, m);
    }
  }
}
