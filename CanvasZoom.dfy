/** The zoom control of components/editor/Canvas.tsx: a percentage that starts at
    100 and moves in steps of 10 between 10 and 200. */
module CanvasZoom {

  const InitialZoom := 100
  const MinZoom := 10
  const MaxZoom := 200
  const ZoomStep := 10

  /** The zoom-in button's update: one step up, capped at the maximum. */
  function ZoomedIn(z: int): (r: int)
    ensures r <= MaxZoom && r <= z + ZoomStep
    ensures r == z + ZoomStep || r == MaxZoom
  {
    if z + ZoomStep < MaxZoom then z + ZoomStep else MaxZoom
  }

  /** The zoom-out button's update: one step down, floored at the minimum. */
  function ZoomedOut(z: int): (r: int)
    ensures r >= MinZoom && r >= z - ZoomStep
    ensures r == z - ZoomStep || r == MinZoom
  {
    if z - ZoomStep > MinZoom then z - ZoomStep else MinZoom
  }

  /** The zoom levels the control can show: the bounds and the 10-point grid. */
  predicate ValidZoom(z: int)
  {
    MinZoom <= z <= MaxZoom && z % ZoomStep == 0
  }

  datatype ZoomClick = In | Out

  /** The zoom after a series of button clicks, in order. */
  function ZoomAfter(z: int, clicks: seq<ZoomClick>): int
    decreases |clicks|
  {
    if clicks == [] then z
    else ZoomAfter(if clicks[0] == In then ZoomedIn(z) else ZoomedOut(z), clicks[1..])
  }

  /** The initial zoom is a valid level. */
  lemma InitialZoomValid()
    ensures ValidZoom(InitialZoom)
  {
  }

  /** Each click keeps the zoom a valid level and moves it by at most one step. */
  lemma ClickKeepsValid(z: int)
    requires ValidZoom(z)
    ensures ValidZoom(ZoomedIn(z)) && ValidZoom(ZoomedOut(z))
    ensures z <= ZoomedIn(z) <= z + ZoomStep
    ensures z - ZoomStep <= ZoomedOut(z) <= z
  {
  }

  /** A button does nothing exactly at its own bound. */
  lemma NoOpExactlyAtBounds(z: int)
    ensures ZoomedIn(z) == z <==> z == MaxZoom
    ensures ZoomedOut(z) == z <==> z == MinZoom
  {
  }

  /** Away from the bounds, zooming in and out undo each other. */
  lemma ZoomRoundTrips(z: int)
    ensures MinZoom <= z <= MaxZoom - ZoomStep ==> ZoomedOut(ZoomedIn(z)) == z
    ensures MinZoom + ZoomStep <= z <= MaxZoom ==> ZoomedIn(ZoomedOut(z)) == z
  {
  }

  /** Any series of clicks from a valid level ends on a valid level; in particular
      the canvas scale `zoom / 100` never has a zero divisor in `100 / zoom`. */
  lemma {:induction false} ClicksKeepValid(z: int, clicks: seq<ZoomClick>)
    requires ValidZoom(z)
    ensures ValidZoom(ZoomAfter(z, clicks))
    ensures ZoomAfter(z, clicks) > 0
    decreases |clicks|
  {
    if clicks != [] {
      ClickKeepsValid(z);
      ClicksKeepValid(if clicks[0] == In then ZoomedIn(z) else ZoomedOut(z), clicks[1..]);
    }
  }

  /** `n` clicks of the same button. */
  function Repeat(c: ZoomClick, n: nat): (r: seq<ZoomClick>)
    ensures |r| == n && forall i :: 0 <= i < n ==> r[i] == c
  {
    if n == 0 then [] else [c] + Repeat(c, n - 1)
  }

  /** `n` zoom-in clicks add `n` steps, up to the maximum. */
  lemma {:induction false} RepeatedZoomIn(z: int, n: nat)
    requires ValidZoom(z)
    ensures ZoomAfter(z, Repeat(In, n)) == if z + n * ZoomStep <= MaxZoom then z + n * ZoomStep else MaxZoom
    decreases n
  {
    if n > 0 {
      ClickKeepsValid(z);
      RepeatedZoomIn(ZoomedIn(z), n - 1);
      assert Repeat(In, n)[1..] == Repeat(In, n - 1);
    }
  }

  /** `n` zoom-out clicks take off `n` steps, down to the minimum. */
  lemma {:induction false} RepeatedZoomOut(z: int, n: nat)
    requires ValidZoom(z)
    ensures ZoomAfter(z, Repeat(Out, n)) == if z - n * ZoomStep >= MinZoom then z - n * ZoomStep else MinZoom
    decreases n
  {
    if n > 0 {
      ClickKeepsValid(z);
      RepeatedZoomOut(ZoomedOut(z), n - 1);
      assert Repeat(Out, n)[1..] == Repeat(Out, n - 1);
    }
  }

  /** The levels reachable from the initial zoom are exactly the valid ones. */
  lemma ReachableExactlyValid(z: int) returns (clicks: seq<ZoomClick>)
    ensures ValidZoom(z) ==> ZoomAfter(InitialZoom, clicks) == z
    ensures forall cs :: ZoomAfter(InitialZoom, cs) == z ==> ValidZoom(z)
  {
    clicks := [];
    if ValidZoom(z) {
      if z >= InitialZoom {
        clicks := Repeat(In, (z - InitialZoom) / ZoomStep);
        RepeatedZoomIn(InitialZoom, (z - InitialZoom) / ZoomStep);
      } else {
        clicks := Repeat(Out, (InitialZoom - z) / ZoomStep);
        RepeatedZoomOut(InitialZoom, (InitialZoom - z) / ZoomStep);
      }
    }
    forall cs | ZoomAfter(InitialZoom, cs) == z
      ensures ValidZoom(z)
    {
      ClicksKeepValid(InitialZoom, cs);
    }
  }

  /** The zoom state of the canvas and its two buttons. */
  class ZoomControl {
    var zoom: int

    /** The zoom is always a valid level: the constructor starts it at one and
        both buttons keep it there. */
    predicate Valid()
      reads this
    {
      ValidZoom(zoom)
    }

    constructor ()
      ensures zoom == InitialZoom && Valid()
    {
      zoom := InitialZoom;
    }

    /** The zoom-out button: `setZoom(z => Math.max(10, z - 10))`. */
    method ZoomOut()
      modifies this
      requires Valid()
      ensures zoom == ZoomedOut(old(zoom))
      ensures Valid()
    {
      zoom := if zoom - ZoomStep > MinZoom then zoom - ZoomStep else MinZoom;
    }

    /** The zoom-in button: `setZoom(z => Math.min(200, z + 10))`. */
    method ZoomIn()
      modifies this
      requires Valid()
      ensures zoom == ZoomedIn(old(zoom))
      ensures Valid()
    {
      zoom := if zoom + ZoomStep < MaxZoom then zoom + ZoomStep else MaxZoom;
    }
  }
}
