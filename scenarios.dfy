/** Clients of the ZoomBBOX strategy that walk through typical view changes
    and state what the strategy records. */
module Scenarios {
  import opened JsValues
  import opened LevelSelection
  import opened ZoomStrategy

  const Everywhere := Bounds(-180.0, -90.0, 180.0, 90.0)

  /** Zooming in from 4 to 6 over features whose mean area is 600000 pixels
      refines level 1 to 2 and reads with "L2". */
  method ZoomInRefines() {
    var s := new ZoomBBOX(None);
    s.zoom, s.level := Some(4), L(1);
    var pixels := [Area(600000.0)];
    assert pixels[..0] == [];
    assert MeanArea(pixels) == Some(600000.0);
    s.Update(map[], LonLat(0.0, 0.0), 6, pixels, Some(Everywhere), true, true, false, 2.0, Filter(1));
    assert s.level == L(2);
    ReadEffectsShape(None, map[], Filter(1), L(2));
    LevelParamsOfRange(2, 2);
    assert |s.log| == 2 && s.log[1].request["params"] == Params(map["level" := "L2"]);
  }

  /** Zooming out from 10 to 8 over features whose mean area is 100000
      pixels coarsens level 3 to 2 and reads. */
  method ZoomOutCoarsens() {
    var s := new ZoomBBOX(None);
    s.zoom, s.level := Some(10), L(3);
    var pixels := [Area(100000.0), Area(0.0)];
    assert pixels[..1] == [Area(100000.0)] && pixels[..1][..0] == [];
    assert Total([]) == 0.0 && EmptyCount([]) == 0;
    assert Total(pixels[..1]) == 100000.0 && EmptyCount(pixels[..1]) == 0;
    assert Total(pixels) == 100000.0 && EmptyCount(pixels) == 1;
    assert MeanArea(pixels) == Some(100000.0);
    s.Update(map[], LonLat(0.0, 0.0), 8, pixels, Some(Everywhere), true, true, false, 2.0, Filter(1));
    assert s.level == L(2);
    assert |s.log| == 2;
  }

  /** Panning without zooming over valid bounds reads nothing, unless forced. */
  method PanReadsOnlyWhenForced() {
    var s := new ZoomBBOX(None);
    s.zoom, s.level := Some(5), L(1);
    s.Update(map[], LonLat(1.0, 1.0), 5, [Area(10.0)], Some(Everywhere), true, true, false, 2.0, Filter(1));
    assert s.level == L(1) && s.log == [];
    s.Update(map["force" := Bool(true)], LonLat(2.0, 2.0), 5, [Area(10.0)], Some(Everywhere), true, true, false, 2.0, Filter(2));
    assert s.log == ReadEffects(None, map["force" := Bool(true)], Filter(2), L(1));
  }

  /** Without map bounds nothing is read, but the view is still committed. */
  method NoBoundsNoRead() {
    var s := new ZoomBBOX(None);
    s.Update(map["force" := Bool(true)], LonLat(0.0, 0.0), 7, [], None, true, true, true, 2.0, Filter(1));
    assert s.level == L(2) && s.zoom == Some(7) && s.log == [];
    assert s.bounds == None && s.resolution == None;
  }

  /** The response the strategy holds is never replaced, so each read
      aborts that same response, and the next read will abort it again. */
  method HeldResponseAbortedOnEveryRead() {
    var h := Response(7);
    var s := new ZoomBBOX(Some(h));
    s.zoom, s.level := Some(3), L(0);
    s.Update(map[], LonLat(0.0, 0.0), 3, [], Some(Everywhere), true, true, true, 2.0, Filter(1));
    assert s.level == L(0) && s.response == Some(h);
    ReadEffectsShape(Some(h), map[], Filter(1), L(0));
    assert s.log[..2] == [Abort(h), LoadEnd];
  }

  /** With `noAbort: true` the held response is left alone. */
  method NoAbortLeavesResponse() {
    var h := Response(7);
    var s := new ZoomBBOX(Some(h));
    var options := map["noAbort" := Bool(true)];
    s.Update(options, LonLat(0.0, 0.0), 3, [], Some(Everywhere), true, true, true, 2.0, Filter(3));
    ReadEffectsShape(Some(h), options, Filter(3), L(0));
    assert |s.log| == 2 && s.log[0] == LoadStart(Filter(3));
  }
}
