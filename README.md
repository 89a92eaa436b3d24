# ember-mapbox-gl: the long-lived reuse rules

This project models the bookkeeping ember-mapbox-gl layers over a mapbox-gl map, and proves its properties in Dafny.

Every binding in the addon decides, on mount, update and unmount, whether to create, reuse, unhide, update, hide or remove a resource. The bindings are:

- the map component;
- the maps service's cache of `{element, map}` pairs;
- the layer, source and control components.

"Long-lived" bindings outlive their component: a long-lived map is cached and reused by the next component with the same `mapId`. Long-lived layers and controls are hidden instead of removed, and long-lived sources stay registered.

The mapbox-gl map is modelled abstractly, as a class `Mapbox.MapHandle`. It holds:

- the `hasLoaded` flag the addon stores on it;
- its source table (id to option hash);
- its style layers (layout, paint, other keys);
- its control list (`map._controls`, `Control` objects carrying the `idName` tag and the `hide` class);
- two run-loop queues that target it: source removals deferred until after render, and `map.remove` deferred to the next tick.

JavaScript values are a `Json` datatype with JavaScript truthiness and `Object.assign` as `Json.Overlay`. An Ember `assert` is modelled as a failing `Init`: it returns an error and no component.

Modules follow the addon's files:

| file | module |
|---|---|
| `json.dfy`, `wrappers.dfy` | JavaScript values, `Option` |
| `mapbox.dfy` | the mapbox-gl handle, its tables and queues |
| `maps_service.dfy` | `addon/services/maps-service.js` |
| `mapbox_gl.dfy` | `addon/components/mapbox-gl.js` |
| `mapbox_gl_layer.dfy` | `addon/components/mapbox-gl-layer.js` |
| `mapbox_gl_source.dfy` | `addon/components/mapbox-gl-source.js` |
| `mapbox_gl_control.dfy` | `addon/components/mapbox-gl-control.js` |

Two client methods, `MapboxGl.LongLivedRemount` and `MapboxGlControl.LongLivedRemount`, prove the point of the design. A long-lived map or control that is mounted, destroyed and mounted again is the same instance, present once, and visible again. For layers and sources the same follows from their `Init` and `WillDestroy` contracts.

## Model

| member | source | states |
|---|---|---|
| Json.Overlay | addon/components/mapbox-gl-layer.js:98-104 | `Object.assign({}, base, over)`: the keys are the union; `over` wins on a shared key, `base` gives the rest |
| Mapbox.StyleLayer.WithZoomRange | addon/components/mapbox-gl-layer.js:159 | `setLayerZoomRange`: a non-null bound is set; a null or undefined bound, minimum or maximum, keeps the old value (or stays absent); layout, paint and every other key are untouched |
| Mapbox.SourceRemovalsApplied | addon/components/mapbox-gl-source.js:131-135 | running queued removals removes exactly the queued sources no layer uses, in any order; every other source is unchanged |
| Mapbox.IndexOf | addon/components/mapbox-gl-control.js:72 | the position `removeControl` splices: the first occurrence, or the length when absent |
| Mapbox.RemoveFirstSplices | addon/components/mapbox-gl-control.js:72 | `removeControl` (RemoveFirst) removes only the first occurrence, keeping everything before and after it; a control not in the list leaves it as it was |
| Mapbox.MapHandle.constructor | addon/services/maps-service.js:54 | a new map keeps the options it was built with and its container element; it has not loaded and has no sources, layers, controls or queued work |
| Mapbox.MapHandle.AddSource | addon/components/mapbox-gl-source.js:98 | the source table gains exactly the new id with its options |
| Mapbox.MapHandle.SetData | addon/components/mapbox-gl-source.js:107 | only the named source's `data` changes |
| Mapbox.MapHandle.SetCoordinates | addon/components/mapbox-gl-source.js:123 | only the named source's `coordinates` change |
| Mapbox.MapHandle.RemoveSource | addon/components/mapbox-gl-source.js:134 | the source is removed unless a layer still uses it |
| Mapbox.MapHandle.QueueSourceRemoval | addon/components/mapbox-gl-source.js:134 | corrected scheduling (`schedule`, not the `scheduleOnce` written at this line; see Findings): the removal is queued behind every earlier one |
| Mapbox.MapHandle.FlushAfterRender | addon/components/mapbox-gl-source.js:133-134 | the after-render queue empties, and the sources become the queued removals applied in order (see SourceRemovalsApplied) |
| Mapbox.MapHandle.AddLayer | addon/components/mapbox-gl-layer.js:138 | the layer table gains exactly the new id, with the layout, paint and other keys of the specification |
| Mapbox.MapHandle.SetLayoutProperty | addon/components/mapbox-gl-layer.js:135 | one layout key of one layer changes; a missing layer leaves the table as it was |
| Mapbox.MapHandle.SetPaintProperty | addon/components/mapbox-gl-layer.js:152 | one paint key of one layer changes; a missing layer leaves the table as it was |
| Mapbox.MapHandle.SetFilter | addon/components/mapbox-gl-layer.js:156 | only the named layer's `filter` changes |
| Mapbox.MapHandle.SetLayerZoomRange | addon/components/mapbox-gl-layer.js:159 | only the named layer's zoom bounds change, as WithZoomRange says |
| Mapbox.MapHandle.RemoveLayer | addon/components/mapbox-gl-layer.js:170 | exactly that layer leaves the table |
| Mapbox.MapHandle.AddControl | addon/components/mapbox-gl-control.js:90 | the control is appended to `_controls` |
| Mapbox.MapHandle.RemoveControl | addon/components/mapbox-gl-control.js:72 | the first occurrence of the control leaves `_controls` |
| Mapbox.MapHandle.ScheduleRemove | addon/components/mapbox-gl.js:64 | `map.remove` is queued for the next tick |
| Mapbox.MapHandle.FlushNextTick | addon/components/mapbox-gl.js:62-65 | the map is removed exactly when its removal was queued; the queue empties |
| MapsService.CacheKey | addon/services/maps-service.js:31 | the cache key is the map id, or "undefined" for an unset id |
| MapsService.MapOptions | addon/services/maps-service.js:51-53 | map options: the keys are the environment `map` defaults plus `initOptions` plus `container`; `initOptions` wins over the defaults; `container` is always the new element |
| MapsService.Service.constructor | addon/services/maps-service.js:17-20 | the cache starts empty and satisfies the cache invariant |
| MapsService.Service.GetMap | addon/services/maps-service.js:30-33 | on a hit, exactly the cached pair; on a miss, a fresh element and a fresh, unloaded map contained in it, built with MapOptions; the cache is never modified; `longLived` has no effect |
| MapsService.Service.CreateMap | addon/services/maps-service.js:43-57 | a fresh element and a fresh, unloaded map whose container is that element and whose options are MapOptions, whatever `longLived` is |
| MapboxGl.CheckConfig | addon/components/mapbox-gl.js:41-45 | configuration passes if and only if a long-lived map has a truthy `mapId`, the `mapbox-gl` config exists, and its `accessToken` is a string; each failing case reports its own assertion, the first in source order |
| MapboxGl.MapComponent.Init | addon/components/mapbox-gl.js:34-48 | the component exists exactly when CheckConfig passes; it starts without a map, listener or queued setup, and records whether a `mapReload` action was given |
| MapboxGl.MapComponent.DidInsertElement | addon/components/mapbox-gl.js:50-57 | setup is queued only when GL is supported |
| MapboxGl.MapComponent.FlushAfterRender | addon/components/mapbox-gl.js:54 | a queued setup runs once, and its TypeError, if any, is returned; without a queued setup nothing changes |
| MapboxGl.MapComponent.Setup | addon/components/mapbox-gl.js:72-84 | a cache hit reuses the cached map: `mapReload` fires, `map` is set, and no listener is registered; without a `mapReload` action the hit fails before `map` is set and before `resize`. A miss registers a load listener on a fresh map. `resize` follows on both paths that complete |
| MapboxGl.MapComponent.LoadEvent | addon/components/mapbox-gl.js:81 | the one-shot `load` listener runs `_onLoad` only for the map it is bound to, then unbinds; the cache invariant is kept |
| MapboxGl.MapComponent.OnLoad | addon/components/mapbox-gl.js:90-101 | `mapLoaded` fires and `map` is set. Only a long-lived component sets `hasLoaded` and caches `{element: map._container, map}` under its key; otherwise the cache and flag are unchanged |
| MapboxGl.MapComponent.OnReload | addon/components/mapbox-gl.js:107-110 | `mapReload` fires and `map` is set; without a `mapReload` action the call fails with a TypeError and neither happens |
| MapboxGl.MapComponent.WillDestroy | addon/components/mapbox-gl.js:59-66 | removal is queued only when the component is not long-lived and has a map; nothing else about the map changes |
| MapboxGl.LongLivedRemount | addon/components/mapbox-gl.js:72-110 | a long-lived map loaded and cached by one component is reused by the next with the same `mapId`: same instance, `mapReload` then `resize`, never queued for removal; a second component without `mapReload` fails at setup and holds no map |
| MapboxGlLayer.StyleGroup | addon/components/mapbox-gl-layer.js:98-104 | `_layout`/`_paint`: every key of the environment's group and of the layer's group, the layer's value winning |
| MapboxGlLayer.EnvConfig | addon/components/mapbox-gl-layer.js:93-96 | `_envConfig`: the per-type block of the `mapbox-gl` config named by the layer's type; a null or undefined config (`?? {}`) gives no defaults |
| MapboxGlLayer.SourceIdOf | addon/components/mapbox-gl-layer.js:71-75 | `_sourceId`: the source id a parent source component passes in wins; otherwise the layer's own `source` |
| MapboxGlLayer.MergedLayer | addon/components/mapbox-gl-layer.js:106-123 | `_layer`: every key of `layer` plus id/type/source/layout/paint. Other keys are copied; the five computed keys take the computed values, `source` being `_sourceId` |
| MapboxGlLayer.MergedLayerParts | addon/components/mapbox-gl-layer.js:147-152 | the dictionaries the update loops iterate are exactly the merged `_layout` and `_paint` |
| MapboxGlLayer.MergedLayerKeys | addon/components/mapbox-gl-layer.js:155-159 | `filter` is a key of `_layer` exactly when it is a key of `layer`, with the same value; `_layer`'s minzoom, maxzoom and id are the layer's |
| MapboxGlLayer.AddedLayerUsesSource | addon/components/mapbox-gl-layer.js:75 | a layer added from `_layer` draws from `_sourceId`, so that source counts as used and its removal is refused while the layer is in the map |
| MapboxGlLayer.CheckLayer | addon/components/mapbox-gl-layer.js:128-129 | `init` fails on a null layer, a falsy type or a falsy id, in that order, and passes exactly when all are present |
| MapboxGlLayer.UpdatedLayer | addon/components/mapbox-gl-layer.js:142-160 | what `didUpdateAttrs` leaves of a style layer: no layout, paint or other key is ever dropped (its values are stated by UpdatedLayerLayout, UpdatedLayerPaint, UpdatedLayerProps and UpdatedLayerZoom) |
| MapboxGlLayer.UpdatedLayerLayout | addon/components/mapbox-gl-layer.js:147-149 | after an update (UpdatedLayer) every merged layout key has the merged value, and every other layout key keeps its old value |
| MapboxGlLayer.UpdatedLayerPaint | addon/components/mapbox-gl-layer.js:151-153 | after an update (UpdatedLayer) every merged paint key has the merged value, and every other paint key keeps its old value |
| MapboxGlLayer.UpdatedLayerProps | addon/components/mapbox-gl-layer.js:155-159 | after an update the filter is replaced only when `filter` is a key of the layer, and is kept (or stays absent) otherwise; properties other than filter and zoom bounds are kept, and no property other than filter, minzoom and maxzoom is added |
| MapboxGlLayer.UpdatedLayerZoom | addon/components/mapbox-gl-layer.js:159 | after an update every non-null zoom bound takes the layer's value, and a null or undefined minimum or maximum keeps the old bound, or stays absent |
| MapboxGlLayer.LayerComponent.Init | addon/components/mapbox-gl-layer.js:125-140 | fails as CheckLayer says. A present layer is made visible and not re-added; an absent layer is added from MergedLayer with `_sourceId` (SourceIdOf). No other layer changes |
| MapboxGlLayer.LayerComponent.DidUpdateAttrs | addon/components/mapbox-gl-layer.js:142-160 | the named layer becomes UpdatedLayer of its old value (see UpdatedLayerLayout, UpdatedLayerPaint, UpdatedLayerProps and UpdatedLayerZoom); every other layer, and a missing layer, is unchanged |
| MapboxGlLayer.LayerComponent.SetLayoutProperties | addon/components/mapbox-gl-layer.js:147-149 | the layer's layout becomes the old one overlaid with every given key; no other layer changes, and a missing layer leaves the table as it was |
| MapboxGlLayer.LayerComponent.SetPaintProperties | addon/components/mapbox-gl-layer.js:151-153 | the layer's paint becomes the old one overlaid with every given key; no other layer changes, and a missing layer leaves the table as it was |
| MapboxGlLayer.LayerComponent.WillDestroy | addon/components/mapbox-gl-layer.js:162-172 | a long-lived layer stays with visibility `none` and is not visible; any other is removed; no other layer changes |
| MapboxGlSource.SourceId | addon/components/mapbox-gl-source.js:70-78 | an assigned id wins, then a truthy `idName`, then the guid |
| MapboxGlSource.AddedOptions | addon/components/mapbox-gl-source.js:90-97 | a geojson source is never added without data: missing data becomes the empty FeatureCollection; every other key and every other source type is unchanged |
| MapboxGlSource.SourceComponent.Init | addon/components/mapbox-gl-source.js:80-111 | a long-lived source without `idName` fails. An absent source is added with AddedOptions; null options fail. A present source is never re-added: its data is replaced only when skip is off and data with features is given. No other source changes |
| MapboxGlSource.SourceComponent.DidUpdateAttrs | addon/components/mapbox-gl-source.js:113-126 | nothing for null options. Data is preferred; coordinates are set only without data; a source missing from the map fails |
| MapboxGlSource.SourceComponent.WillDestroy | addon/components/mapbox-gl-source.js:128-136 | a short-lived source's removal is queued behind earlier ones; a long-lived source's is not |
| MapboxGlSource.ScheduleOnce | addon/components/mapbox-gl-source.js:134 | as written, the queue either keeps its length (an existing entry's argument is replaced) or gains the new entry |
| MapboxGlSource.ScheduleOnceKeepsLast | addon/components/mapbox-gl-source.js:134 | as written, a map's queue holds only the last id scheduled for it |
| MapboxGlSource.ScheduleOnceOncePerTarget | addon/components/mapbox-gl-source.js:134 | as written, the queue keeps at most one `removeSource` entry per map |
| MapboxGlSource.ScheduleOnceLosesFirstRemoval | addon/components/mapbox-gl-source.js:134 | as written, of two sources destroyed in one pass the first is never removed |
| MapboxGlSource.Schedule | addon/components/mapbox-gl-source.js:134 | corrected: a map's queued ids gain the new id at the end |
| MapboxGlSource.ScheduleLeavesOthers | addon/components/mapbox-gl-source.js:134 | corrected scheduling leaves every other map's queue alone |
| MapboxGlSource.ScheduleRemovesEvery | addon/components/mapbox-gl-source.js:131-135 | corrected: two unused sources destroyed in one pass are both removed by the flush |
| MapboxGlSource.IdsForAppend | addon/components/mapbox-gl-source.js:134 | a map's queued ids distribute over concatenation of queues |
| MapboxGlControl.FirstTagged | addon/components/mapbox-gl-control.js:123-128 | the position of the first control whose tag equals the id, or the length when none has it |
| MapboxGlControl.ControlFromMap | addon/components/mapbox-gl-control.js:123-128 | as written, `getControlFromMap`: the first control tagged loosely equal to the id, or null exactly when none is |
| MapboxGlControl.TaggedControl | addon/components/mapbox-gl-control.js:42 | corrected lookup: null exactly without an `idName` or when no control carries it; otherwise the first control carrying it |
| MapboxGlControl.UntaggedLookupFindsForeignControl | addon/components/mapbox-gl-control.js:42 | as written, a component without `idName` finds the map's own untagged control, and destroying it removes that control; the corrected lookup finds nothing |
| MapboxGlControl.ControlComponent.Init | addon/components/mapbox-gl-control.js:36-44 | a long-lived control without `idName` fails. A control found under the tag is unhidden and not re-added; otherwise the given control is tagged and appended, and a null control fails. It becomes the previous control, and no other control's tag or `hide` class changes |
| MapboxGlControl.ControlComponent.DidUpdateAttrs | addon/components/mapbox-gl-control.js:101-114 | the previous control, if any, leaves the list. The new control, if any, is appended and recorded; otherwise none is recorded |
| MapboxGlControl.ControlComponent.WillDestroy | addon/components/mapbox-gl-control.js:67-75 | nothing without a previous control; a long-lived one is hidden and stays; any other is removed |
| MapboxGlControl.LongLivedRemount | addon/components/mapbox-gl-control.js:82-93 | a long-lived control mounted under X, destroyed and mounted again under X is that same instance. It is unhidden and held once; the second instance is never added |

## Left out

- `addon/components/mapbox-gl-popup.js` is not part of this model: it passes calls through to `MapboxGl.Popup` and has no reuse logic.
- DOM work (`createElement`, `prepend`, `classList`) is left out. The `hide` class is the `hidden` flag on a `Control`, and an element is an opaque `Element`.
- `MapboxGl.supported()` becomes the `glSupported` parameter of the map component. The global `MapboxGl.accessToken` assignment, the `window[mapId]` debug assignment and `console.log` are left out: they have no effect on the tables.
- Ember `assert` is modelled as the development build's failure. Production builds strip assertions; that behaviour is not modelled.
- The real asynchronous `load` event is `MapComponent.LoadEvent`, which a caller invokes. The run loop is modelled per map: `scheduleOnce('afterRender', ...)`, `next` and `bind` become queues on the map or a flag on the component, drained by explicit flush methods. Ordering between different maps' queues is not modelled.
- Pending cache entries, loader cancellation and error callbacks do not exist in this code, so they are not modelled. Cache entries are never evicted, as in the code.
- Mapbox-gl rendering, the style-specification payloads and GeoJSON contents are opaque `Json` values. Numbers are integers, since floating point plays no part in the reuse rules.
- Mapbox-gl reports an operation on a missing layer through an error event; the model leaves the tables unchanged. `removeSource` on a source still used by a layer likewise leaves the table unchanged.
- Mapbox.MapHandle.AddLayer: the `before` argument is kept on the layer component but layer stacking order is not modelled.
- MapsService.CacheKey: a `mapId` containing dots, which Ember's `get` would read as a path, is not modelled, and null and undefined both read as "undefined".
- MapboxGlLayer.CheckLayer: layer ids are modelled as strings, so a truthy id that is not a string (a number, say) is refused with `IdNotString`, where the code accepts it.
- Source options and layer specifications that are primitives other than null or undefined are not modelled.
- Controls added by mapbox-gl itself (logo, attribution) are not created by the model's map constructor; the control list starts empty, and UntaggedLookupFindsForeignControl takes such a control as a parameter.
- MapboxGlControl.ControlComponent.DidUpdateAttrs does not tag the new control, as in the code; a later lookup by `idName` therefore does not find a replaced control.
- MapboxGlSource.SourceComponent.WillDestroy uses the corrected scheduling (Schedule), not the argument-replacing `scheduleOnce` of the code; see Findings.
- Mapbox.MapHandle.QueueSourceRemoval appends, as the corrected scheduling (Schedule) does; it does not replace the argument of an earlier queued `removeSource` as `scheduleOnce` at mapbox-gl-source.js:134 does (ScheduleOnce models that); see Findings.
- MapboxGlLayer.EnvConfig: a layer `type` that is not a string reads no per-type defaults, where JavaScript would convert it to a property name.
- The templates that pass `_sourceId` from a source component to its layers are not part of this model; the passed value is the `passedSourceId` input of the layer component.
- MapboxGlControl.ControlComponent.Init uses the corrected lookup (TaggedControl), not the loose-equality lookup of the code; see Findings.
- A source component's `sourceId` is fixed at `init`; reassigning it later is not modelled.

## Findings

| source | as written | input that shows it | evidently intended | confidence | as-written member | corrected member |
|---|---|---|---|---|---|---|
| addon/components/mapbox-gl-source.js:134 | `scheduleOnce('afterRender', this.map, this.map.removeSource, this.sourceId)` keeps one queued call per (map, `removeSource`) pair, and a later call only replaces its argument | two short-lived sources `a` and `b` of one map destroyed in the same render pass: only `removeSource(b)` runs, and `a` stays in the map | every destroyed short-lived source is removed after render (`schedule`, not `scheduleOnce`) | not executed | MapboxGlSource.ScheduleOnceLosesFirstRemoval | MapboxGlSource.ScheduleRemovesEvery |
| addon/components/mapbox-gl-control.js:42 | `getControlFromMap(this.idName)` compares `c.idName == idName` loosely, so a null `idName` matches every control nobody tagged | a short-lived control component without `idName` on a map holding its own logo control: the logo is found and unhidden, the given control is never added, and on destroy the logo is removed | a component without `idName` always adds its own control; only a control tagged with that `idName` is reused | not executed | MapboxGlControl.UntaggedLookupFindsForeignControl | MapboxGlControl.TaggedControl |
