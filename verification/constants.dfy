/** Layout constants: the window rectangles of the three- and five-card spreads, their
  * centre targets, the viewport-dependent zoom scale and the background path. */
module Constants {
  import opened Common
  import Background

  /** A window rectangle in percent of the canvas. */
  datatype Win = Win(x: real, y: real, w: real, h: real)

  /** Two rows: three windows on top, two below. */
  const WINDOWS_5: seq<Win> := [
    Win(18.0, 18.0, 14.0, 26.0), Win(43.0, 18.0, 14.0, 26.0), Win(68.0, 18.0, 14.0, 26.0),
    Win(30.0, 54.0, 14.0, 26.0), Win(56.0, 54.0, 14.0, 26.0)]

  const WINDOWS_3: seq<Win> := [
    Win(43.0, 20.0, 14.0, 26.0), Win(20.0, 55.0, 14.0, 26.0), Win(66.0, 55.0, 14.0, 26.0)]

  /** Five and three windows, every one 14 by 26 percent and inside the canvas. */
  lemma WindowsShape()
    ensures |WINDOWS_5| == 5 && |WINDOWS_3| == 3
    ensures forall win :: win in WINDOWS_5 + WINDOWS_3 ==> win.w == 14.0 && win.h == 26.0
    ensures forall win :: win in WINDOWS_5 + WINDOWS_3 ==>
      0.0 <= win.x && win.x + win.w <= 100.0 && 0.0 <= win.y && win.y + win.h <= 100.0
  {
  }

  /** `windowCenterTarget(win, W, H)`: the window's centre in pixels, unrotated. */
  function WindowCenterTarget(win: Win, W: real, H: real): (t: Target)
    ensures t.angle == Some(0.0)
    ensures t.x - win.x / 100.0 * W == (win.x + win.w) / 100.0 * W - t.x
    ensures t.y - win.y / 100.0 * H == (win.y + win.h) / 100.0 * H - t.y
  {
    Target((win.x + win.w / 2.0) / 100.0 * W, (win.y + win.h / 2.0) / 100.0 * H, Some(0.0))
  }

  /** For a window of positive size on a canvas of positive size, the centre lies strictly
    * inside the window's pixel rectangle. */
  lemma WindowCenterInside(win: Win, W: real, H: real)
    requires win.w > 0.0 && win.h > 0.0 && W > 0.0 && H > 0.0
    ensures win.x / 100.0 * W < WindowCenterTarget(win, W, H).x < (win.x + win.w) / 100.0 * W
    ensures win.y / 100.0 * H < WindowCenterTarget(win, W, H).y < (win.y + win.h) / 100.0 * H
  {
    var t := WindowCenterTarget(win, W, H);
    assert (win.x + win.w) / 100.0 * W - win.x / 100.0 * W == win.w / 100.0 * W;
    assert (win.y + win.h) / 100.0 * H - win.y / 100.0 * H == win.h / 100.0 * H;
  }

  /** `zoomScaleTarget()` for the viewport width `innerWidth`. */
  function ZoomScaleTarget(innerWidth: real): (s: real)
    ensures s == 2.0 || s == 2.5 || s == 3.0
    ensures s == 2.0 <==> innerWidth < 560.0
    ensures s == 3.0 <==> innerWidth >= 1024.0
  {
    if innerWidth < 560.0 then 2.0
    else if innerWidth < 1024.0 then 2.5
    else 3.0
  }

  /** A wider viewport never gets a smaller zoom scale. */
  lemma ZoomScaleTargetMonotone(w1: real, w2: real)
    requires w1 <= w2
    ensures ZoomScaleTarget(w1) <= ZoomScaleTarget(w2)
  {
  }

  /** The copy of `bgPath` kept alongside the layout constants selects the same image:
    * "Desktop" exactly when the renderer is at least as wide as it is tall, "Pink" exactly
    * for the pink colorway. */
  lemma ConstantsBgPath(colorway: Background.Colorway, w: real, h: real)
    ensures var p := Background.BgPath(colorway, w, h);
      (w >= h <==> p == "/cards/canvas/Pink-Desktop.png" || p == "/cards/canvas/Grey-Desktop.png") &&
      (colorway == Background.Pink <==> p == "/cards/canvas/Pink-Desktop.png" || p == "/cards/canvas/Pink-Mobile.png")
  {
    Background.BgPathCases(colorway, w, h);
  }
}
