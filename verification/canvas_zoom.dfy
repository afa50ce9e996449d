/** The visualisation canvas: an integer zoom percentage changed in steps of 10 and
    clamped to [50, 200], applied to the content as the scale factor zoom / 100. */
module CanvasZoom {
  import opened Common

  const InitialZoom: int := 100
  const MinZoom: int := 50
  const MaxZoom: int := 200
  const Step: int := 10

  /** The zoom values the canvas can reach: a multiple of 10 in [50, 200]. */
  predicate Reachable(z: int) {
    MinZoom <= z <= MaxZoom && z % Step == 0
  }

  /** `handleZoomIn`: `Math.min(prev + 10, 200)`. */
  function ZoomedIn(z: int): (r: int)
    ensures r <= MaxZoom
    ensures z + Step <= MaxZoom ==> r == z + Step
    ensures z + Step > MaxZoom ==> r == MaxZoom
    ensures Reachable(z) ==> Reachable(r) && r >= z
  {
    MinInt(z + Step, MaxZoom)
  }

  /** `handleZoomOut`: `Math.max(prev - 10, 50)`. */
  function ZoomedOut(z: int): (r: int)
    ensures r >= MinZoom
    ensures z - Step >= MinZoom ==> r == z - Step
    ensures z - Step < MinZoom ==> r == MinZoom
    ensures Reachable(z) ==> Reachable(r) && r <= z
  {
    MaxInt(z - Step, MinZoom)
  }

  /** Zooming in and then out returns to the start whenever the start is below the maximum. */
  lemma InThenOut(z: int)
    requires Reachable(z) && z < MaxZoom
    ensures ZoomedOut(ZoomedIn(z)) == z
  {
  }

  /** Zooming out and then in returns to the start whenever the start is above the minimum. */
  lemma OutThenIn(z: int)
    requires Reachable(z) && z > MinZoom
    ensures ZoomedIn(ZoomedOut(z)) == z
  {
  }

  /** The zoom after a sequence of button presses (`true` = zoom in) from the initial 100. */
  function AfterPresses(presses: seq<bool>): (z: int)
    ensures Reachable(z)
  {
    if presses == [] then InitialZoom
    else
      var prev := AfterPresses(presses[..|presses| - 1]);
      if presses[|presses| - 1] then ZoomedIn(prev) else ZoomedOut(prev)
  }

  /** Ten presses of zoom-in from the start reach the maximum and stay there. */
  lemma {:induction false} ZoomInSaturates(n: nat)
    ensures AfterPresses(seq(n, _ => true)) == MinInt(InitialZoom + Step * n, MaxZoom)
  {
    if n > 0 {
      var presses := seq(n, _ => true);
      assert presses[..n - 1] == seq(n - 1, _ => true);
      ZoomInSaturates(n - 1);
    }
  }

  /** The CSS scale applied to the content, `zoom / 100`. */
  function Scale(z: int): (s: real)
    requires Reachable(z)
    ensures 0.5 <= s <= 2.0
    ensures z == InitialZoom <==> s == 1.0
  {
    (z as real) / 100.0
  }

  class VisualizationCanvas {
    var zoom: int

    ghost predicate Valid()
      reads this
    {
      Reachable(zoom)
    }

    constructor ()
      ensures Valid() && zoom == InitialZoom
    {
      zoom := InitialZoom;
    }

    method ZoomIn()
      requires Valid()
      modifies this
      ensures Valid()
      ensures zoom == ZoomedIn(old(zoom))
    {
      zoom := MinInt(zoom + Step, MaxZoom);
    }

    method ZoomOut()
      requires Valid()
      modifies this
      ensures Valid()
      ensures zoom == ZoomedOut(old(zoom))
    {
      zoom := MaxInt(zoom - Step, MinZoom);
    }

    /** The scale the content is drawn at. */
    function ContentScale(): (s: real)
      reads this
      requires Valid()
      ensures 0.5 <= s <= 2.0
    {
      Scale(zoom)
    }
  }
}
