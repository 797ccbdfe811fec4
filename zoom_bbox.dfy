/** The ZoomBBOX fetch strategy: on every move or refresh of the map it
    recomputes the detail level, commits the observed view, decides whether
    to read again and, if so, issues the read with the level as a request
    parameter. The protocol and the layer's event bus are recorded as one
    ordered log of effects held on the strategy. */
module ZoomStrategy {
  import opened JsValues
  import opened LevelSelection

  datatype LonLat = LonLat(lon: real, lat: real)

  /** A rectangle in map units. */
  datatype Bounds = Bounds(left: real, bottom: real, right: real, top: real)

  /** Stands for the filter the base BBOX strategy's `createFilter` builds. */
  datatype Filter = Filter(id: nat)

  /** Stands for a protocol response handle. */
  datatype Response = Response(id: nat)

  /** A property value of an options object. */
  datatype Value =
    | Bool(b: bool)
    | Number(x: real)
    | Text(s: string)
    | FilterValue(filter: Filter)
    | Params(entries: map<string, string>)
    | MergeCallback   // the strategy's `merge` method
    | Scope           // the strategy itself
  {
    predicate Truthy() {
      match this
      case Bool(b) => b
      case Number(x) => x != 0.0
      case Text(s) => s != ""
      case _ => true
    }
  }

  /** `options && options.force` */
  predicate Force(options: map<string, Value>) {
    "force" in options && options["force"].Truthy()
  }

  /** `options && options.noAbort === true` */
  predicate NoAbort(options: map<string, Value>) {
    "noAbort" in options && options["noAbort"] == Bool(true)
  }

  /** One recorded call into the protocol or the layer's event bus. */
  datatype Effect =
    | Abort(response: Response)              // layer.protocol.abort(response)
    | LoadEnd                                // layer.events.triggerEvent('loadend')
    | LoadStart(filter: Filter)              // layer.events.triggerEvent('loadstart', {filter})
    | Read(request: map<string, Value>)      // layer.protocol.read(request)

  // ---------------------------------------------------------------------
  // The `level` request parameter
  // ---------------------------------------------------------------------

  /** `'L' + this.level` */
  function LevelParam(level: Level): string {
    "L" + LevelToString(level)
  }

  /** What a data source reads back from a `level` parameter: the integer
      after the `L`, or None for anything else ("Lnull", "LNaN", ...). */
  function ParseLevelParam(param: string): Option<int> {
    if |param| > 0 && param[0] == 'L' then ParseInt(param[1..]) else None
  }

  /** A numeric level survives the trip to the data source; null, undefined
      and NaN arrive as strings no source can read as a level. */
  lemma LevelParamRoundTrip(level: Level)
    ensures ParseLevelParam(LevelParam(level)) == (if level.L? then Some(level.n) else None)
  {
    var param := LevelParam(level);
    assert param[1..] == LevelToString(level);
    if level.L? {
      IntRoundTrip(level.n);
    }
  }

  /** The six levels 0..5 go on the wire as "L0".."L5", distinct strings. */
  lemma LevelParamsOfRange(a: int, b: int)
    requires 0 <= a <= MaxLevel && 0 <= b <= MaxLevel
    ensures LevelParam(L(a)) == ['L', DigitChar(a)]
    ensures LevelParam(L(a)) == LevelParam(L(b)) <==> a == b
  {
    LevelParamRoundTrip(L(a));
    LevelParamRoundTrip(L(b));
  }

  // ---------------------------------------------------------------------
  // What `triggerRead` hands to the protocol and records
  // ---------------------------------------------------------------------

  /** The read request: the strategy's filter, callback, `level` parameter and
      scope, completed by `applyDefaults` with the caller's other options. */
  function ReadRequest(filter: Filter, level: Level, options: map<string, Value>): map<string, Value> {
    var own := map[
      "filter" := FilterValue(filter),
      "callback" := MergeCallback,
      "params" := Params(map["level" := LevelParam(level)]),
      "scope" := Scope];
    ApplyDefaults(own, options)
  }

  /** The read carries the strategy's own four properties whatever the
      caller's options hold, and every other option unchanged. */
  lemma ReadRequestContents(filter: Filter, level: Level, options: map<string, Value>)
    ensures var request := ReadRequest(filter, level, options);
      request.Keys == {"filter", "callback", "params", "scope"} + options.Keys &&
      request["filter"] == FilterValue(filter) &&
      request["callback"] == MergeCallback &&
      request["params"] == Params(map["level" := LevelParam(level)]) &&
      request["scope"] == Scope &&
      forall k :: k in options && k !in {"filter", "callback", "params", "scope"} ==> request[k] == options[k]
  {
  }

  /** Whether `triggerRead` aborts the held response first. */
  predicate Aborts(response: Option<Response>, options: map<string, Value>) {
    response.Some? && !NoAbort(options)
  }

  /** The effects one `triggerRead` records, in order. */
  function ReadEffects(response: Option<Response>, options: map<string, Value>, filter: Filter, level: Level): seq<Effect> {
    (if Aborts(response, options) then [Abort(response.value), LoadEnd] else []) +
    [LoadStart(filter), Read(ReadRequest(filter, level, options))]
  }

  datatype EffectKind = AbortKind | LoadEndKind | LoadStartKind | ReadKind

  function KindOf(e: Effect): EffectKind {
    match e
    case Abort(_) => AbortKind
    case LoadEnd => LoadEndKind
    case LoadStart(_) => LoadStartKind
    case Read(_) => ReadKind
  }

  /** How many effects of kind `k` the log holds. */
  function Count(log: seq<Effect>, k: EffectKind): nat {
    if log == [] then 0 else (if KindOf(log[0]) == k then 1 else 0) + Count(log[1..], k)
  }

  lemma {:induction false} CountAppend(a: seq<Effect>, b: seq<Effect>, k: EffectKind)
    ensures Count(a + b, k) == Count(a, k) + Count(b, k)
  {
    if a == [] {
      assert a + b == b;
    } else {
      assert (a + b)[0] == a[0];
      assert (a + b)[1..] == a[1..] + b;
      CountAppend(a[1..], b, k);
    }
  }

  lemma CountPair(x: Effect, y: Effect, k: EffectKind)
    ensures Count([x, y], k) == (if KindOf(x) == k then 1 else 0) + (if KindOf(y) == k then 1 else 0)
  {
    assert [x, y][1..] == [y];
    assert [y][1..] == [];
    assert Count([y], k) == (if KindOf(y) == k then 1 else 0) + Count([], k);
  }

  /** Count of kind `k` in the effects of one `triggerRead`. */
  lemma ReadEffectsCount(response: Option<Response>, options: map<string, Value>, filter: Filter, level: Level, k: EffectKind)
    ensures Count(ReadEffects(response, options, filter, level), k) ==
      (if Aborts(response, options) && (k == AbortKind || k == LoadEndKind) then 1 else 0) +
      (if k == LoadStartKind || k == ReadKind then 1 else 0)
  {
    var head: seq<Effect> := if Aborts(response, options) then [Abort(response.value), LoadEnd] else [];
    var tail := [LoadStart(filter), Read(ReadRequest(filter, level, options))];
    CountAppend(head, tail, k);
    CountPair(tail[0], tail[1], k);
    if head != [] {
      CountPair(head[0], head[1], k);
    }
  }

  /** One `triggerRead` records exactly one `loadstart` and one read, the
      read last and carrying `params.level == 'L' + level` whatever the
      caller's options hold; it aborts the held response and records one
      `loadend`, both before the `loadstart`, exactly when a response is held
      and `noAbort` is not `true`. */
  lemma ReadEffectsShape(response: Option<Response>, options: map<string, Value>, filter: Filter, level: Level)
    ensures var e := ReadEffects(response, options, filter, level);
      var aborts := Aborts(response, options);
      Count(e, LoadStartKind) == 1 && Count(e, ReadKind) == 1 &&
      Count(e, AbortKind) == (if aborts then 1 else 0) &&
      Count(e, LoadEndKind) == (if aborts then 1 else 0) &&
      e[|e| - 2] == LoadStart(filter) &&
      e[|e| - 1].Read? && e[|e| - 1].request["params"] == Params(map["level" := LevelParam(level)]) &&
      (aborts ==> e[..2] == [Abort(response.value), LoadEnd])
  {
    ReadRequestContents(filter, level, options);
    ReadEffectsCount(response, options, filter, level, AbortKind);
    ReadEffectsCount(response, options, filter, level, LoadEndKind);
    ReadEffectsCount(response, options, filter, level, LoadStartKind);
    ReadEffectsCount(response, options, filter, level, ReadKind);
  }

  /** Appending one read's effects to a log adds exactly one read to it. */
  lemma ReadAddsOneRead(log: seq<Effect>, response: Option<Response>, options: map<string, Value>, filter: Filter, level: Level)
    ensures Count(log + ReadEffects(response, options, filter, level), ReadKind) == Count(log, ReadKind) + 1
  {
    CountAppend(log, ReadEffects(response, options, filter, level), ReadKind);
    ReadEffectsCount(response, options, filter, level, ReadKind);
  }

  /** The condition under which `update` reads: the map has bounds, and the
      caller forces it, or the layer is visible, in range and its bounds are
      invalid, or the level changed (loose `!=`). */
  predicate WantsRead(options: map<string, Value>, mapBounds: Option<Bounds>, visible: bool, inRange: bool,
                      boundsInvalid: bool, newLevel: Level, oldLevel: Level) {
    mapBounds.Some? &&
    (Force(options) || (visible && inRange && boundsInvalid) || !LooseEquals(newLevel, oldLevel))
  }

  // ---------------------------------------------------------------------
  // The strategy object
  // ---------------------------------------------------------------------

  class ZoomBBOX {
    /** Last zoom, null before the first update. */
    var zoom: Option<nat>
    /** Last center, null before the first update. */
    var center: Option<LonLat>
    /** Last level, used to detect level changes. */
    var level: Level
    /** The map bounds the base strategy's tracked bounds were last
        calculated from (`calculateBounds(mapBounds)`). */
    var bounds: Option<Bounds>
    /** The map resolution at the last read. */
    var resolution: Option<real>
    /** The response handle the base strategy holds; this strategy reads it
        but never stores one. */
    var response: Option<Response>
    /** Protocol calls and layer events, in the order they happened. */
    var log: seq<Effect>

    constructor (response: Option<Response>)
      ensures zoom == None && center == None && level == Null
      ensures bounds == None && resolution == None
      ensures this.response == response && log == []
    {
      zoom, center, level := None, None, Null;
      bounds, resolution := None, None;
      this.response := response;
      log := [];
    }

    /** `getLevel(center, zoom)`, where `pixels` holds what `toPixel` gives
        for each of the layer's features at `zoom`. The center is not used. */
    method GetLevel(zoom: nat, pixels: seq<PixelArea>) returns (r: Level)
      ensures r == SelectLevel(this.zoom, this.level, zoom, pixels)
    {
      if this.zoom == Some(zoom) {
        return this.level;
      }
      var len := |pixels|;
      if len == 0 {
        return TableLevel(zoom);
      }
      var empty := 0;
      var total := 0.0;
      for i := 0 to len
        invariant empty == EmptyCount(pixels[..i])
        invariant total == Total(pixels[..i])
      {
        assert pixels[..i + 1][..i] == pixels[..i];
        if pixels[i].Truthy() {
          total := total + pixels[i].pixels;
        } else {
          empty := empty + 1;
        }
      }
      assert pixels[..len] == pixels;
      EmptyCountBounds(pixels);
      // total / (len - empty); when nothing was counted the total is 0 too, so NaN
      var mean: Option<real> := if len - empty == 0 then None else Some(total / (len - empty) as real);
      if zoom > ZoomNumber(this.zoom) {
        r := if Exceeds(mean) then IncreaseCapped(this.level, MaxLevel) else this.level;
      } else {
        r := if FallsShort(mean) then DecreaseFloored(this.level, 0) else this.level;
      }
    }

    /** `triggerRead(options)`: abort and `loadend` unless `noAbort`, then
        `loadstart` and the read. The handle the read returns is dropped. */
    method TriggerRead(options: map<string, Value>, filter: Filter)
      modifies this`log
      ensures log == old(log) + ReadEffects(response, options, filter, level)
    {
      if response.Some? && !NoAbort(options) {
        log := log + [Abort(response.value)];
        log := log + [LoadEnd];
      }
      log := log + [LoadStart(filter)];
      log := log + [Read(ReadRequest(filter, level, options))];
    }

    /** `update(options)` on a "moveend" or "refresh" event. The map's
        center, zoom and resolution, the features' pixel areas at the new
        zoom, `getMapBounds()`, the layer's visibility and range, whether
        `invalidBounds(mapBounds)` holds, and the filter `createFilter()`
        builds are given. */
    method Update(options: map<string, Value>, mapCenter: LonLat, mapZoom: nat, pixels: seq<PixelArea>,
                  mapBounds: Option<Bounds>, visible: bool, inRange: bool, boundsInvalid: bool,
                  mapResolution: real, filter: Filter)
      modifies this
      ensures level == SelectLevel(old(zoom), old(level), mapZoom, pixels)
      ensures center == Some(mapCenter) && zoom == Some(mapZoom)
      ensures response == old(response)
      ensures if WantsRead(options, mapBounds, visible, inRange, boundsInvalid, level, old(level)) then
          bounds == mapBounds && resolution == Some(mapResolution) &&
          log == old(log) + ReadEffects(response, options, filter, level)
        else
          bounds == old(bounds) && resolution == old(resolution) && log == old(log)
      ensures Count(log, ReadKind) ==
        Count(old(log), ReadKind) + (if WantsRead(options, mapBounds, visible, inRange, boundsInvalid, level, old(level)) then 1 else 0)
      ensures old(InRange(level)) && mapZoom <= MaxZoom ==> InRange(level)
    {
      // old_level = this.level || this.getLevel(this.center, this.zoom): the
      // fallback passes the cached zoom, so getLevel returns this.level
      // (for a null zoom too, as null == null)
      var oldLevel := level;
      if !level.Truthy() && zoom.Some? {
        oldLevel := GetLevel(zoom.value, pixels);
      }
      assert oldLevel == old(level);
      var newLevel := GetLevel(mapZoom, pixels);
      level := newLevel;
      center := Some(mapCenter);
      zoom := Some(mapZoom);
      var fetch := mapBounds.Some? &&
        (Force(options) || (visible && inRange && boundsInvalid) || !LooseEquals(newLevel, oldLevel));
      assert fetch == WantsRead(options, mapBounds, visible, inRange, boundsInvalid, level, old(level));
      if fetch {
        bounds := mapBounds;
        resolution := Some(mapResolution);
        ReadAddsOneRead(log, response, options, filter, level);
        TriggerRead(options, filter);
      }
      if old(InRange(level)) && mapZoom <= MaxZoom {
        SelectionStaysInRange(old(zoom), old(level), mapZoom, pixels);
      }
    }
  }

  /** Before the first update the level is null, so the first update reads
      for a level change exactly when its selection yields a number: without
      features, whenever the table covers the zoom; with features, only when
      the mean area moves the level off null (a zoom above 0 compares as
      zooming in, zoom 0 as zooming out). */
  lemma FirstUpdateLevelChange(zoom: nat, pixels: seq<PixelArea>)
    ensures var r := SelectLevel(None, Null, zoom, pixels);
      var mean := MeanArea(pixels);
      !LooseEquals(r, Null) <==>
        if |pixels| == 0 then zoom <= MaxZoom
        else (zoom > 0 && Exceeds(mean)) || (zoom == 0 && FallsShort(mean))
  {
    TableDomain(zoom);
  }

  /** How the level becomes NaN: a zoom beyond the table without features
      looks up undefined, and the next selection with features that moves
      the level computes undefined + 1 or undefined - 1. */
  lemma NaNLevelArises(cachedZoom: Option<nat>, zoom: nat, next: nat, pixels: seq<PixelArea>)
    requires cachedZoom != Some(zoom) && zoom > MaxZoom
    requires next != zoom && |pixels| > 0
    ensures SelectLevel(cachedZoom, Null, zoom, []) == Undefined
    ensures var mean := MeanArea(pixels);
      SelectLevel(Some(zoom), Undefined, next, pixels) ==
        if (next > zoom && Exceeds(mean)) || (next <= zoom && FallsShort(mean)) then NaN else Undefined
  {
    TableDomain(zoom);
  }

  /** A NaN level persists while the layer has features (or the zoom is
      unchanged), and since NaN is loosely unequal to itself every update
      with map bounds then reads, sending `"LNaN"`. Only a move to a zoom the
      table covers with no features brings back a numeric level. */
  lemma NaNLevelReadsOnEveryUpdate(cachedZoom: Option<nat>, zoom: nat, pixels: seq<PixelArea>,
                                   options: map<string, Value>, bounds: Bounds,
                                   visible: bool, inRange: bool, boundsInvalid: bool)
    ensures |pixels| > 0 || cachedZoom == Some(zoom) ==> SelectLevel(cachedZoom, NaN, zoom, pixels) == NaN
    ensures |pixels| == 0 && cachedZoom != Some(zoom) && zoom <= MaxZoom ==>
      SelectLevel(cachedZoom, NaN, zoom, pixels) == L(Levels[zoom])
    ensures WantsRead(options, Some(bounds), visible, inRange, boundsInvalid, NaN, NaN)
    ensures LevelParam(NaN) == "LNaN" && ParseLevelParam(LevelParam(NaN)).None?
  {
    TableDomain(zoom);
    LevelParamRoundTrip(NaN);
  }
}
