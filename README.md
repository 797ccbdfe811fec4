# ZoomBBOX fetch strategy, modelled in Dafny

`OpenLayers.Strategy.ZoomBBOX` is a bounding-box fetch strategy from Sahana Eden's
map client. It is called on every move or refresh of the map. Each time it recomputes a
detail level, normally 0 (coarsest) to 5 (finest), and decides whether to re-request
features. A request sends the level to the server as the parameter `level`, written as
`"L" + level`.

The project models three parts of the strategy.

- **Level selection** (`getLevel`), in module `LevelSelection`:
  - An unchanged zoom keeps the cached level.
  - With no features on the layer, the default zoom→level table decides.
  - Otherwise the mean on-screen area of the features decides. When zooming in, a mean above
    500000 pixels² moves the level up one step, capped at 5. When zooming out, a mean below
    500000 moves it down one step, floored at 0.
  - `SelectLevel` is the functional specification. The class method `ZoomBBOX.GetLevel`
    contains the source's accumulation loop and is proved equal to it.
- **Update decision** (`update`), as the method `ZoomBBOX.Update`. It computes the new level and
  then commits level, center and zoom. It reads only when the map has bounds and one of these
  holds: the caller forces it; the layer is visible, in range and its bounds are invalid; or
  the level changed.
- **Fetch lifecycle** (`triggerRead`), as the method `ZoomBBOX.TriggerRead`. The protocol calls
  and layer events go into one ordered log on the object: abort, `loadend`, `loadstart`,
  read.

The JavaScript semantics these parts rely on are in module `JsValues`.

- The cached `level` starts as `null`. A zoom missing from the table gives `undefined`, and
  arithmetic on `undefined` gives `NaN`. All four values are kept. `null + 1` is 1,
  `null - 1` is -1, and `zoom > null` compares with 0.
- `new_level != old_level` uses loose equality, where `null == undefined` and `NaN`
  equals nothing.
- A NaN mean is `Option.None`. Every comparison with it is false.

Quirks of the code that the model keeps:

- When every feature's pixel area is 0 or NaN, the mean is 0/0. The cached level is kept,
  and the table is not consulted, even though the layer has features (`AllEmptyKeepsLevel`). `MeanArea` proves that the
  total is exactly 0 in that case, so the quotient is NaN and not an infinity.
- `update` stores the new level, center and zoom before it checks whether the map has
  bounds, so they change even when no read follows.
- `old_level` is always the cached level. This includes `null` before the first update,
  because the fallback `getLevel(this.center, this.zoom)` returns at its `zoom == this.zoom` test.
- The first update does not always count as a level change. With features on the
  layer, its selection can leave the level `null` (`FirstSelectionCanStayNull`). `FirstUpdateLevelChange` states exactly
  when it changes.
- `triggerRead` never stores the handle that `read` returns. The strategy therefore keeps
  whatever response the base strategy held. As far as this file goes, that same handle is
  aborted again on every read whose options do not set `noAbort: true`, and when there is none nothing is ever aborted; the base
  class's `merge` callback, which is not modelled, may clear it. The constructor takes that
  handle.
- A zoom above 18 without features looks up `undefined`, and the next selection with
  features that moves the level makes it `NaN` (`NaNLevelArises`). A `NaN` level stays
  `NaN` while the layer has features, and because `NaN` is loosely unequal to itself every
  update with map bounds then reads, sending `"LNaN"` (`NaNLevelReadsOnEveryUpdate`). Only a
  zoom in 0..18 with no features brings a numeric level back.

Module `Scenarios` holds example client runs (zoom in, zoom out, pan with and without
`force`, a map without bounds, a held response aborted or kept with `noAbort`). They
exercise the model and correspond to no function of the source.

External inputs to `Update`: the map's center, zoom and resolution, `getMapBounds()`, the
layer's visibility and `calculateInRange()`, the result of `invalidBounds(mapBounds)`, and the
filter `createFilter()` builds. `toPixel`'s value for each feature at the new zoom is a
`PixelArea` input.

## Model

| member | source | states |
|---|---|---|
| `LevelSelection.TableDomain` | static/scripts/gis/openlayers/lib/OpenLayers/Strategy/ZoomBBOX.js:52-72 | the table maps exactly the zooms 0..18, each to a level in 0..5; any other zoom looks up `undefined` |
| `LevelSelection.TableMonotone` | static/scripts/gis/openlayers/lib/OpenLayers/Strategy/ZoomBBOX.js:52-72 | the default level never decreases as the zoom grows |
| `LevelSelection.EmptyCountBounds` | static/scripts/gis/openlayers/lib/OpenLayers/Strategy/ZoomBBOX.js:107-117 | `empty` counts the features whose pixel value is 0 or NaN; it equals the feature count exactly when no value is truthy, and then `total` is 0 |
| `LevelSelection.MeanArea` | static/scripts/gis/openlayers/lib/OpenLayers/Strategy/ZoomBBOX.js:107-118 | the mean is NaN exactly when no feature has a truthy pixel value, and it is then 0/0 |
| `LevelSelection.SameZoomKeepsLevel` | static/scripts/gis/openlayers/lib/OpenLayers/Strategy/ZoomBBOX.js:93-96 | an unchanged zoom returns the cached level whatever the features |
| `LevelSelection.NoFeaturesUsesTable` | static/scripts/gis/openlayers/lib/OpenLayers/Strategy/ZoomBBOX.js:97-104 | with no features a new zoom in 0..18 gives `levels[zoom]`, which lies in 0..5 and is at least the level of any lower zoom |
| `LevelSelection.ZoomingIn` | static/scripts/gis/openlayers/lib/OpenLayers/Strategy/ZoomBBOX.js:120-128 | zooming in gives `min(level+1, 5)` if the mean exceeds 500000, else the level; from a level of at most 5 it never drops and rises by at most one |
| `LevelSelection.ZoomingOut` | static/scripts/gis/openlayers/lib/OpenLayers/Strategy/ZoomBBOX.js:129-138 | a new zoom not above the cached one gives `max(level-1, 0)` if the mean is below 500000, else the level; from a level of at least 0 it never rises and drops by at most one |
| `LevelSelection.AllEmptyKeepsLevel` | static/scripts/gis/openlayers/lib/OpenLayers/Strategy/ZoomBBOX.js:107-138 | if every feature's pixel value is 0 or NaN, the mean is NaN and the cached level is returned unchanged, with no fallback to the table |
| `LevelSelection.SelectionStaysInRange` | static/scripts/gis/openlayers/lib/OpenLayers/Strategy/ZoomBBOX.js:92-140 | from a cached level that is null or in 0..5 and a zoom of at most 18, the result is null or in 0..5; a numeric level stays numeric and, with features, moves by at most one |
| `LevelSelection.FirstSelectionCanStayNull` | static/scripts/gis/openlayers/lib/OpenLayers/Strategy/ZoomBBOX.js:118-137 | before any update, with features on screen, the level stays `null` exactly when the mean does not move it: a zoom above 0 whose mean does not exceed 500000, or zoom 0 whose mean does not fall below it; features that are all empty always leave it `null` |
| `JsValues.DigitsRoundTrip` | static/scripts/gis/openlayers/lib/OpenLayers/Strategy/ZoomBBOX.js:217 | reading back the decimal digits of a natural number gives that number |
| `JsValues.IntRoundTrip` | static/scripts/gis/openlayers/lib/OpenLayers/Strategy/ZoomBBOX.js:217 | reading back the string form of any integer gives that integer |
| `JsValues.ApplyDefaults` | static/scripts/gis/openlayers/lib/OpenLayers/Strategy/ZoomBBOX.js:214-219 | the merged options have the keys of both objects; keys the strategy set keep its values, and the other keys take the caller's |
| `ZoomStrategy.LevelParamRoundTrip` | static/scripts/gis/openlayers/lib/OpenLayers/Strategy/ZoomBBOX.js:217 | `"L" + level` parses back to the level when it is a number; `"Lnull"`, `"Lundefined"` and `"LNaN"` parse to nothing |
| `ZoomStrategy.LevelParamsOfRange` | static/scripts/gis/openlayers/lib/OpenLayers/Strategy/ZoomBBOX.js:217 | levels 0..5 go on the wire as the two-character strings `"L0"`..`"L5"`, which are pairwise distinct |
| `ZoomStrategy.ReadRequestContents` | static/scripts/gis/openlayers/lib/OpenLayers/Strategy/ZoomBBOX.js:213-219 | the read carries the strategy's filter, `merge` callback, scope and `params.level == "L" + level` whatever the caller's options hold, plus every other option key unchanged |
| `ZoomStrategy.ReadEffectsCount` | static/scripts/gis/openlayers/lib/OpenLayers/Strategy/ZoomBBOX.js:206-219 | one `triggerRead` records one `loadstart` and one read, plus one abort and one `loadend` exactly when a response is held and `noAbort` is not `true` |
| `ZoomStrategy.ReadEffectsShape` | static/scripts/gis/openlayers/lib/OpenLayers/Strategy/ZoomBBOX.js:206-219 | the abort and `loadend` come first, in that order, then `loadstart`; the read comes last and carries the `"L" + level` parameter |
| `ZoomStrategy.FirstUpdateLevelChange` | static/scripts/gis/openlayers/lib/OpenLayers/Strategy/ZoomBBOX.js:176-186 | the first update sees a level change exactly when the table covers the zoom (no features), or when the mean moves the level off null (features) |
| `ZoomStrategy.ZoomBBOX.constructor` | static/scripts/gis/openlayers/lib/OpenLayers/Strategy/ZoomBBOX.js:25-43 | zoom, center and level start null, and nothing has been read or recorded |
| `ZoomStrategy.ZoomBBOX.GetLevel` | static/scripts/gis/openlayers/lib/OpenLayers/Strategy/ZoomBBOX.js:92-140 | the accumulating loop returns exactly the level `SelectLevel` specifies for the cached zoom and level |
| `ZoomStrategy.ZoomBBOX.TriggerRead` | static/scripts/gis/openlayers/lib/OpenLayers/Strategy/ZoomBBOX.js:204-220 | the log grows by exactly the effects of one read, in order, and the held response is left as it was |
| `ZoomStrategy.ZoomBBOX.Update` | static/scripts/gis/openlayers/lib/OpenLayers/Strategy/ZoomBBOX.js:174-191 | level, center and zoom always take the newly observed values; bounds, resolution and the log change exactly when the map has bounds and (force, or visible and in range and bounds invalid, or new level loosely unequal to the old one), and then the log grows by one read's effects, so each update issues at most one read; the response is never replaced; a level that was null or in 0..5 stays so for a zoom of at most 18 |
| `ZoomStrategy.NaNLevelArises` | static/scripts/gis/openlayers/lib/OpenLayers/Strategy/ZoomBBOX.js:97-137 | a new zoom above 18 with no features gives `undefined`; the next selection with features gives `NaN` exactly when the mean moves the level, and `undefined` otherwise |
| `ZoomStrategy.NaNLevelReadsOnEveryUpdate` | static/scripts/gis/openlayers/lib/OpenLayers/Strategy/ZoomBBOX.js:92-186 | a `NaN` level stays `NaN` with features or an unchanged zoom, returns to `levels[zoom]` only with no features and a zoom in 0..18, always counts as a level change when bounds exist, and goes on the wire as `"LNaN"`, which reads back as no number |
| `ZoomStrategy.ReadAddsOneRead` | static/scripts/gis/openlayers/lib/OpenLayers/Strategy/ZoomBBOX.js:213-219 | appending one `triggerRead`'s effects to any log adds exactly one read to it |

## Left out

- `toPixel` is not modelled. It uses floating-point `cos`, `sqrt` and `pow` on a latitude of
  unspecified units. Its value for each feature at the new zoom is an input to `getLevel`.
- Infinite pixel values are not modelled. They arise when the latitude's cosine is 0.
  Floating-point rounding of the running total is also left out: areas are exact reals.
- `s3_debug(mean)` is debug logging and is left out.
- The `exceptions` table and the `pixels` field are declared but never read, so they are left out.
- `getLevel`'s `center` parameter is unused in the source, so the model omits it.
- Base BBOX behaviour is not part of this model:
  - `getMapBounds`, `invalidBounds` and `createFilter` become inputs to `Update`.
  - For `calculateBounds`, the model records the map bounds it was given. Its scaling by the
    strategy's ratio is not modelled.
  - The `merge` callback is only named in the read request.
- The protocol's `read` and `abort` are asynchronous I/O. They are recorded, together with
  the layer's `loadend` and `loadstart` events, as entries in an append-only log.
- `triggerEvent` runs the layer's listeners synchronously, and `triggerRead` passes the read
  the `filter` of the event object it gave the `loadstart` listeners
  (static/scripts/gis/openlayers/lib/OpenLayers/Strategy/ZoomBBOX.js:211-215). A listener
  may therefore replace that filter before the read. Listeners are not modelled: the model
  assumes none does, so `ReadRequestContents`, `ReadEffectsShape` and `ZoomBBOX.TriggerRead`
  state that the read carries the filter `createFilter()` built.
- The model has no layer or map objects. Visibility, range, center, zoom and resolution are inputs.
- Option values are limited to booleans, numbers, strings and the strategy's own values.
  An absent options object behaves like an empty one.
- The source of `OpenLayers.Util.applyDefaults` is not part of this model; `ApplyDefaults`
  follows its documented behaviour of filling in the keys the target lacks. The library also
  overwrites a target key whose value is `undefined`; that is not modelled, because the four
  keys the strategy sets (`filter`, `callback`, `scope`, `params`) never hold `undefined`.
- Fractional zoom levels are not modelled: a zoom is a natural number.
- The string form of numbers with magnitude 10²¹ or more uses an exponent. It is not modelled,
  because levels are never that large.
