/** Level selection of the ZoomBBOX strategy (`getLevel`): the default
    zoom-to-level table, the mean on-screen area of the layer's features,
    and the rule that picks the next detail level from the cached zoom and
    level, the new zoom and the features' pixel areas. */
module LevelSelection {
  import opened JsValues

  /** The highest zoom the default table maps. */
  const MaxZoom: int := 18

  /** The finest detail level. */
  const MaxLevel: int := 5

  /** Mean pixel area (pixels squared) above which zooming in refines the
      level, and below which zooming out coarsens it. */
  const AreaThreshold: real := 500000.0

  /** The default mapping of zoom levels to location-hierarchy levels; the
      level for zoom `z` is `Levels[z]`. */
  const Levels: seq<int> := [
    0, 0, 0, 0,      // zooms 0..3
    1, 1, 1,         // zooms 4..6
    2, 2,            // zooms 7..8
    3, 3, 3, 3,      // zooms 9..12
    4, 4,            // zooms 13..14
    5, 5, 5, 5]      // zooms 15..18

  /** `this.levels[zoom]`: undefined for a zoom the table lacks. */
  function TableLevel(zoom: nat): Level {
    if zoom < |Levels| then L(Levels[zoom]) else Undefined
  }

  /** The table maps exactly the zooms 0..18, each to a level in 0..5. */
  lemma TableDomain(zoom: nat)
    ensures zoom < |Levels| <==> zoom <= MaxZoom
    ensures zoom <= MaxZoom ==> 0 <= Levels[zoom] <= MaxLevel
    ensures TableLevel(zoom).Undefined? <==> zoom > MaxZoom
  {
  }

  /** The table never lowers the level as the zoom grows. */
  lemma TableMonotone(lower: nat, upper: nat)
    requires lower <= upper <= MaxZoom
    ensures upper < |Levels|
    ensures Levels[lower] <= Levels[upper]
  {
  }

  // ---------------------------------------------------------------------
  // Pixel areas and their mean
  // ---------------------------------------------------------------------

  /** What `toPixel` returned for one feature at the new zoom: a number, or
      NaN (a centroid latitude or an area that gives no number). */
  datatype PixelArea = Area(pixels: real) | NotANumber
  {
    /** `if (pixels)`: 0 and NaN are falsy. */
    predicate Truthy() {
      Area? && pixels != 0.0
    }
  }

  /** `total` after the loop has seen `ps`: the sum of the truthy areas. */
  function Total(ps: seq<PixelArea>): real {
    if ps == [] then 0.0
    else
      var last := ps[|ps| - 1];
      Total(ps[..|ps| - 1]) + (if last.Truthy() then last.pixels else 0.0)
  }

  /** `empty` after the loop has seen `ps`: the number of falsy areas. */
  function EmptyCount(ps: seq<PixelArea>): nat {
    if ps == [] then 0
    else EmptyCount(ps[..|ps| - 1]) + (if ps[|ps| - 1].Truthy() then 0 else 1)
  }

  /** At most every feature is empty, exactly every one when none is truthy,
      and then nothing has been added to the total. */
  lemma {:induction false} EmptyCountBounds(ps: seq<PixelArea>)
    ensures EmptyCount(ps) <= |ps|
    ensures EmptyCount(ps) == |ps| <==> forall i :: 0 <= i < |ps| ==> !ps[i].Truthy()
    ensures EmptyCount(ps) == |ps| ==> Total(ps) == 0.0
  {
    if ps != [] {
      var front := ps[..|ps| - 1];
      EmptyCountBounds(front);
      assert forall i :: 0 <= i < |front| ==> front[i] == ps[i];
    }
  }

  /** `total / (len - empty)`, with None standing for NaN. When no feature is
      truthy the divisor is 0 and so is the total: JavaScript computes 0/0. */
  function MeanArea(ps: seq<PixelArea>): (mean: Option<real>)
    ensures mean.None? <==> forall i :: 0 <= i < |ps| ==> !ps[i].Truthy()
    ensures mean.None? ==> Total(ps) == 0.0
  {
    EmptyCountBounds(ps);
    var counted := |ps| - EmptyCount(ps);
    if counted == 0 then None else Some(Total(ps) / counted as real)
  }

  /** `mean > 500000`, false for NaN. */
  predicate Exceeds(mean: Option<real>) {
    mean.Some? && mean.value > AreaThreshold
  }

  /** `mean < 500000`, false for NaN. */
  predicate FallsShort(mean: Option<real>) {
    mean.Some? && mean.value < AreaThreshold
  }

  /** The number `zoom > this.zoom` compares against: null counts as 0. */
  function ZoomNumber(cachedZoom: Option<nat>): int {
    match cachedZoom
    case None => 0
    case Some(z) => z
  }

  /** `getLevel(center, zoom)` with `this.zoom == cachedZoom`,
      `this.level == cachedLevel` and `toPixel` giving `pixels` for the
      layer's features at `zoom`. */
  function SelectLevel(cachedZoom: Option<nat>, cachedLevel: Level, zoom: nat, pixels: seq<PixelArea>): Level {
    if cachedZoom == Some(zoom) then cachedLevel
    else if |pixels| == 0 then TableLevel(zoom)
    else
      var mean := MeanArea(pixels);
      if zoom > ZoomNumber(cachedZoom) then
        if Exceeds(mean) then IncreaseCapped(cachedLevel, MaxLevel) else cachedLevel
      else
        if FallsShort(mean) then DecreaseFloored(cachedLevel, 0) else cachedLevel
  }

  /** A level the strategy may legitimately hold: null before the first
      decision, otherwise 0..5. */
  predicate InRange(level: Level) {
    level.Null? || (level.L? && 0 <= level.n <= MaxLevel)
  }

  // ---------------------------------------------------------------------
  // Properties of the selection
  // ---------------------------------------------------------------------

  /** An unchanged zoom returns the cached level, whatever the features. */
  lemma SameZoomKeepsLevel(cachedZoom: Option<nat>, cachedLevel: Level, zoom: nat, pixels: seq<PixelArea>)
    requires cachedZoom == Some(zoom)
    ensures SelectLevel(cachedZoom, cachedLevel, zoom, pixels) == cachedLevel
  {
  }

  /** Without features the table decides, and for a zoom in 0..18 the
      level is in 0..5 and grows with the zoom. */
  lemma NoFeaturesUsesTable(cachedZoom: Option<nat>, cachedLevel: Level, zoom: nat, other: nat)
    requires cachedZoom != Some(zoom) && zoom <= MaxZoom
    ensures SelectLevel(cachedZoom, cachedLevel, zoom, []) == L(Levels[zoom])
    ensures 0 <= Levels[zoom] <= MaxLevel
    ensures other <= zoom ==> Levels[other] <= Levels[zoom]
  {
    TableDomain(zoom);
    if other <= zoom {
      TableMonotone(other, zoom);
    }
  }

  /** Zooming in with features on screen refines by one step, capped at 5,
      exactly when the mean area exceeds the threshold; the level never
      drops and moves by at most one. */
  lemma ZoomingIn(cachedZoom: Option<nat>, level: int, zoom: nat, pixels: seq<PixelArea>)
    requires |pixels| > 0 && zoom > ZoomNumber(cachedZoom)
    ensures var r := SelectLevel(cachedZoom, L(level), zoom, pixels);
      r == (if Exceeds(MeanArea(pixels)) then L(Min(level + 1, MaxLevel)) else L(level)) &&
      (level <= MaxLevel ==> level <= r.n <= level + 1)
  {
  }

  /** Zooming out (or a new zoom not above the cached one) with features on
      screen coarsens by one step, floored at 0, exactly when the mean area
      falls short of the threshold; the level never rises and moves by at
      most one. */
  lemma ZoomingOut(cachedZoom: Option<nat>, level: int, zoom: nat, pixels: seq<PixelArea>)
    requires |pixels| > 0 && cachedZoom != Some(zoom) && zoom <= ZoomNumber(cachedZoom)
    ensures var r := SelectLevel(cachedZoom, L(level), zoom, pixels);
      r == (if FallsShort(MeanArea(pixels)) then L(Max(level - 1, 0)) else L(level)) &&
      (0 <= level ==> level - 1 <= r.n <= level)
  {
  }

  /** When every feature's area is 0 or NaN the mean is NaN, neither
      comparison holds, and the cached level comes back unchanged: there is
      no fallback to the table. */
  lemma AllEmptyKeepsLevel(cachedZoom: Option<nat>, cachedLevel: Level, zoom: nat, pixels: seq<PixelArea>)
    requires forall i :: 0 <= i < |pixels| ==> !pixels[i].Truthy()
    requires |pixels| > 0
    ensures MeanArea(pixels).None?
    ensures SelectLevel(cachedZoom, cachedLevel, zoom, pixels) == cachedLevel
  {
  }

  /** From a level in range and a zoom the table covers, the selected level
      stays in range; once numeric it stays numeric and moves by at most one
      step unless the table decides. */
  lemma SelectionStaysInRange(cachedZoom: Option<nat>, cachedLevel: Level, zoom: nat, pixels: seq<PixelArea>)
    requires InRange(cachedLevel) && zoom <= MaxZoom
    ensures var r := SelectLevel(cachedZoom, cachedLevel, zoom, pixels);
      InRange(r) &&
      (cachedLevel.L? ==> r.L?) &&
      (cachedLevel.L? && |pixels| > 0 ==> -1 <= r.n - cachedLevel.n <= 1)
  {
    TableDomain(zoom);
  }

  /** The first selection (nothing cached yet) with features on screen
      leaves the level null exactly when the mean does not move it: for a
      zoom above 0 (compared with the null zoom as 0) when the mean does not
      exceed the threshold, for zoom 0 when it does not fall short. In
      particular features that are all empty always leave it null. */
  lemma FirstSelectionCanStayNull(zoom: nat, pixels: seq<PixelArea>)
    requires |pixels| > 0
    ensures SelectLevel(None, Null, zoom, pixels) == Null <==>
      (if zoom > 0 then !Exceeds(MeanArea(pixels)) else !FallsShort(MeanArea(pixels)))
    ensures (forall i :: 0 <= i < |pixels| ==> !pixels[i].Truthy()) ==>
      SelectLevel(None, Null, zoom, pixels) == Null
  {
    if forall i :: 0 <= i < |pixels| ==> !pixels[i].Truthy() {
      AllEmptyKeepsLevel(None, Null, zoom, pixels);
    }
  }
}
