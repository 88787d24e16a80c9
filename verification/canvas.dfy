/** The application's canvas component (`TarotCanvas`): the per-frame sync of every card
  * view with its physics body, the guard at the top of its deal, the choice of the slot
  * targets, and the stage pointer handler that finds the card under the pointer. */
module Canvas {
  import opened Common
  import opened Scene
  import Constants
  import HoroscopeLayout
  import Deal

  /** The view rotation of a card whose body is at `angle`: turned half a circle when the
    * card is dealt reversed. */
  function ViewRotation(angle: real, reversed: bool): real
  {
    if reversed then angle + PI else angle
  }

  /** A card's mutable fields after one tick of the sync loop: the view follows the body's
    * position unless a zoom animation holds a handle for it (`hovered`), takes the body's
    * rotation, and shows exactly the side `isFaceUp` names. */
  function Synced(st: EntityState, bodyX: real, bodyY: real, angle: real, reversed: bool, hovered: bool): EntityState
  {
    st.(x := if hovered then st.x else bodyX, y := if hovered then st.y else bodyY,
        rotation := ViewRotation(angle, reversed),
        frontVisible := st.isFaceUp, backVisible := !st.isFaceUp)
  }

  /** One tick shows exactly one side, the face exactly when the card is face-up, whether
    * or not the card is held by a zoom; the position is the body's when it is not held and
    * stays where the zoom put it when it is; the rotation differs from the body's angle by
    * nothing or, for a reversed card, by half a circle; no other field moves. */
  lemma SyncedMeaning(st: EntityState, bodyX: real, bodyY: real, angle: real, reversed: bool, hovered: bool)
    ensures var r := Synced(st, bodyX, bodyY, angle, reversed, hovered);
      r.frontVisible == st.isFaceUp && r.backVisible == !st.isFaceUp && r.frontVisible != r.backVisible &&
      (hovered ==> r.x == st.x && r.y == st.y) && (!hovered ==> r.x == bodyX && r.y == bodyY) &&
      r.rotation - angle == (if reversed then PI else 0.0) &&
      r.(x := st.x, y := st.y, rotation := st.rotation,
         frontVisible := st.frontVisible, backVisible := st.backVisible) == st
  {
  }

  /** A second tick over an unchanged body and handle map changes nothing more. */
  lemma SyncedIdempotent(st: EntityState, bodyX: real, bodyY: real, angle: real, reversed: bool, hovered: bool)
    ensures var r := Synced(st, bodyX, bodyY, angle, reversed, hovered);
      Synced(r, bodyX, bodyY, angle, reversed, hovered) == r
  {
  }

  /** The loop body for one card. */
  method SyncCard(e: Entity, hovered: bool)
    modifies e`x, e`y, e`rotation, e`frontVisible, e`backVisible
    ensures e.State() == Synced(old(e.State()), e.body.x, e.body.y, e.body.angle, e.reversed, hovered)
  {
    var x := e.body.x;
    var y := e.body.y;
    var angle := e.body.angle;
    if !hovered {
      e.x, e.y := x, y;
    }
    var rot := if e.reversed then angle + PI else angle;
    e.rotation := rot;
    e.frontVisible := e.isFaceUp;
    e.backVisible := !e.isFaceUp;
  }

  /** The ticker callback: every listed card is synced with its body, positions skipped for
    * the cards in the zoom-handle map; bodies and all other fields stay as they are. */
  method SyncFrame(refs: CanvasRefs)
    modifies refs.sprites`x, refs.sprites`y, refs.sprites`rotation, refs.sprites`frontVisible, refs.sprites`backVisible
    ensures forall e :: e in refs.sprites ==>
      e.State() == Synced(old(e.State()), e.body.x, e.body.y, e.body.angle, e.reversed, e in refs.hoverAnim)
  {
    var sprites := refs.sprites;
    var i := 0;
    while i < |sprites|
      invariant 0 <= i <= |sprites|
      invariant forall e :: e in sprites[..i] ==>
        e.State() == Synced(old(e.State()), e.body.x, e.body.y, e.body.angle, e.reversed, e in refs.hoverAnim)
      invariant forall e :: e in sprites && e !in sprites[..i] ==> e.State() == old(e.State())
    {
      var s := sprites[i];
      SyncCard(s, s in refs.hoverAnim);
      if s in sprites[..i] {
        SyncedIdempotent(old(s.State()), s.body.x, s.body.y, s.body.angle, s.reversed, s in refs.hoverAnim);
      }
      assert sprites[..i + 1] == sprites[..i] + [s];
      i := i + 1;
    }
    assert sprites[..i] == sprites;
  }

  /** How the canvas's `dealToSpread` leaves its guard: the application, engine or deck
    * body is missing; the catalog is empty; a deal is already running; or the deal goes
    * ahead. The refs are checked first, then the catalog, then the flag. */
  datatype GuardOutcome = MissingRefs | NoCards | AlreadyDealing | Proceed

  function CanvasDealGuard(hasApp: bool, hasEngine: bool, hasDeck: bool, catalog: seq<string>, dealing: bool): GuardOutcome
  {
    if !hasApp || !hasEngine || !hasDeck then MissingRefs
    else if |catalog| == 0 then NoCards
    else if dealing then AlreadyDealing
    else Proceed
  }

  /** The canvas goes ahead only when the deal module's own guard would, and in addition
    * only with a deck body and no deal running; with everything present it is the
    * `dealing` flag alone that decides. */
  lemma CanvasGuardStricter(hasApp: bool, hasEngine: bool, hasDeck: bool, catalog: seq<string>, dealing: bool)
    ensures var g := CanvasDealGuard(hasApp, hasEngine, hasDeck, catalog, dealing);
      (g == Proceed <==> Deal.CanDeal(hasApp, hasEngine, catalog) && hasDeck && !dealing) &&
      (g == AlreadyDealing <==> Deal.CanDeal(hasApp, hasEngine, catalog) && hasDeck && dealing) &&
      (g == MissingRefs <==> !hasApp || !hasEngine || !hasDeck)
  {
  }

  /** `WINDOWS_n.map((win) => windowCenterTarget(win, W, H))`. */
  function WindowTargets(windows: seq<Constants.Win>, W: real, H: real): (r: seq<Target>)
    ensures |r| == |windows|
    ensures forall i :: 0 <= i < |r| ==> r[i] == Constants.WindowCenterTarget(windows[i], W, H)
  {
    seq(|windows|, i requires 0 <= i < |windows| => Constants.WindowCenterTarget(windows[i], W, H))
  }

  /** The canvas's choice of slot targets: the horoscope grid for the spread with id exactly
    * "horoscope-12", the five window centres for any other five-slot spread, the three
    * window centres for a three-slot spread, and the slots' percentages otherwise. No
    * profile override is applied. */
  function SelectTargets(spread: Deal.Spread, screen: Size): (r: seq<Target>)
  {
    if spread.id == "horoscope-12" then HoroscopeLayout.HoroscopeGrid(screen)
    else if |spread.slots| == 5 then WindowTargets(Constants.WINDOWS_5, screen.width, screen.height)
    else if |spread.slots| == 3 then WindowTargets(Constants.WINDOWS_3, screen.width, screen.height)
    else Deal.PercentTargets(spread.slots, screen.width, screen.height)
  }

  /** Every card of a spread other than the horoscope gets a target of its own (one target
    * per slot), the horoscope has twelve; the slot percentages matter only for spreads of
    * other sizes, so a five- or three-slot spread lands on the window centres whatever its
    * slots say. */
  lemma SelectTargetsShape(spread: Deal.Spread, screen: Size)
    ensures var r := SelectTargets(spread, screen);
      |r| == (if spread.id == "horoscope-12" then 12 else |spread.slots|) &&
      (spread.id != "horoscope-12" && |spread.slots| != 5 && |spread.slots| != 3 ==>
        forall i :: 0 <= i < |r| ==>
          r[i].x == spread.slots[i].xPerc / 100.0 * screen.width &&
          r[i].y == spread.slots[i].yPerc / 100.0 * screen.height && r[i].angle == Some(spread.slots[i].angle.GetOr(0.0))) &&
      (spread.id != "horoscope-12" && (|spread.slots| == 5 || |spread.slots| == 3) ==>
        forall i :: 0 <= i < |r| ==> r[i].angle == Some(0.0))
  {
    Constants.WindowsShape();
  }

  /** On a screen of positive size, the horoscope and window targets all lie strictly
    * inside the screen, unrotated. */
  lemma SelectTargetsOnScreen(spread: Deal.Spread, screen: Size, i: nat)
    requires screen.width > 0.0 && screen.height > 0.0
    requires spread.id == "horoscope-12" || |spread.slots| == 5 || |spread.slots| == 3
    requires i < |SelectTargets(spread, screen)|
    ensures var t := SelectTargets(spread, screen)[i];
      0.0 < t.x < screen.width && 0.0 < t.y < screen.height && t.angle == Some(0.0)
  {
    var W, H := screen.width, screen.height;
    if spread.id == "horoscope-12" {
      GridOnScreen(W, H, i);
    } else {
      Constants.WindowsShape();
      var windows := if |spread.slots| == 5 then Constants.WINDOWS_5 else Constants.WINDOWS_3;
      assert windows[i] in Constants.WINDOWS_5 + Constants.WINDOWS_3;
      WindowOnScreen(windows[i], W, H);
    }
  }

  lemma GridOnScreen(W: real, H: real, i: nat)
    requires W > 0.0 && H > 0.0 && i < 12
    ensures var t := HoroscopeLayout.HoroscopeGrid(Size(W, H))[i];
      0.0 < t.x < W && 0.0 < t.y < H && t.angle == Some(0.0)
  {
    var cols := HoroscopeLayout.Cols(W);
    assert i / cols < HoroscopeLayout.Rows(W) by {
      assert cols == 6 || cols == 3;
    }
    HoroscopeLayout.GridTargetInside(W, H, i / cols, i % cols);
  }

  /** The centre of a window that fits in the canvas percentages lies inside the screen. */
  lemma WindowOnScreen(win: Constants.Win, W: real, H: real)
    requires W > 0.0 && H > 0.0 && win.w > 0.0 && win.h > 0.0
    requires 0.0 <= win.x && win.x + win.w <= 100.0 && 0.0 <= win.y && win.y + win.h <= 100.0
    ensures var t := Constants.WindowCenterTarget(win, W, H);
      0.0 < t.x < W && 0.0 < t.y < H
  {
    Constants.WindowCenterInside(win, W, H);
    var t := Constants.WindowCenterTarget(win, W, H);
    BetweenFractions(win.x / 100.0, (win.x + win.w) / 100.0, W, t.x);
    BetweenFractions(win.y / 100.0, (win.y + win.h) / 100.0, H, t.y);
  }

  /** A point strictly between two fractions of a length lies strictly inside it. */
  lemma BetweenFractions(lo: real, hi: real, W: real, c: real)
    requires 0.0 <= lo && hi <= 1.0 && W > 0.0 && lo * W < c < hi * W
    ensures 0.0 < c < W
  {
    FractionOf(lo, hi, W);
    var a, b := lo * W, hi * W;
    assert 0.0 <= a < c && c < b <= W;
  }

  lemma FractionOf(lo: real, hi: real, W: real)
    requires 0.0 <= lo && hi <= 1.0 && W > 0.0
    ensures 0.0 <= lo * W && hi * W <= W
  {
    assert W - hi * W == (1.0 - hi) * W;
  }

  /** A rectangle in pixels, as `getBounds()` reports it. */
  datatype Rect = Rect(x: real, y: real, width: real, height: real)

  /** The world bounds of the side a card shows: the front's size times the absolute view
    * scale, centred on the view (both sprites are anchored at their centre and drawn at the
    * same size; rotation is not accounted for). */
  function ShownBounds(e: Entity): Rect
    reads e
  {
    var w := e.frontWidth * AbsR(e.scaleX);
    var h := e.frontHeight * AbsR(e.scaleY);
    Rect(e.x - w / 2.0, e.y - h / 2.0, w, h)
  }

  /** The side a card shows (`isFaceUp ? front : back`) is visible. */
  predicate ShownVisible(e: Entity)
    reads e
  {
    if e.isFaceUp then e.frontVisible else e.backVisible
  }

  /** The application's bounds test: inclusive on all four edges. */
  predicate ClosedContains(r: Rect, px: real, py: real)
  {
    px >= r.x && px <= r.x + r.width && py >= r.y && py <= r.y + r.height
  }

  /** The bounds test of a click at (px, py), as a test on rectangles. */
  function PointIn(px: real, py: real): Rect -> bool
  {
    r => ClosedContains(r, px, py)
  }

  /** A card takes a click when the side it shows is visible and its bounds pass the test. */
  predicate Takes(e: Entity, contains: Rect -> bool)
    reads e
  {
    ShownVisible(e) && contains(ShownBounds(e))
  }

  /** The last of the first `n` cards that takes the click. */
  function TopmostFrom(sprites: seq<Entity>, contains: Rect -> bool, n: nat): Option<nat>
    requires n <= |sprites|
    reads sprites
  {
    if n == 0 then None
    else if Takes(sprites[n - 1], contains) then Some(n - 1)
    else TopmostFrom(sprites, contains, n - 1)
  }

  /** The card that gets a click: the last-listed (topmost) card that takes it. */
  function TopmostHit(sprites: seq<Entity>, contains: Rect -> bool): Option<nat>
    reads sprites
  {
    TopmostFrom(sprites, contains, |sprites|)
  }

  /** The scan finds card `k` exactly when `k` takes the click and no card listed after it
    * (above it) does. */
  lemma {:induction false} TopmostFromSome(sprites: seq<Entity>, contains: Rect -> bool, n: nat, k: nat)
    requires n <= |sprites|
    ensures TopmostFrom(sprites, contains, n) == Some(k) <==>
      k < n && Takes(sprites[k], contains) && forall j :: k < j < n ==> !Takes(sprites[j], contains)
  {
    if n > 0 && !Takes(sprites[n - 1], contains) {
      TopmostFromSome(sprites, contains, n - 1, k);
    }
  }

  /** The scan finds nothing exactly when no card takes the click. */
  lemma {:induction false} TopmostFromNone(sprites: seq<Entity>, contains: Rect -> bool, n: nat)
    requires n <= |sprites|
    ensures TopmostFrom(sprites, contains, n) == None <==> forall j :: 0 <= j < n ==> !Takes(sprites[j], contains)
  {
    if n > 0 && !Takes(sprites[n - 1], contains) {
      TopmostFromNone(sprites, contains, n - 1);
    }
  }

  /** The descending scan of the pointer handler: from the last card down, skip a card
    * whose shown side is hidden, and stop at the first whose bounds pass the test. */
  method HitTest(sprites: seq<Entity>, contains: Rect -> bool) returns (hit: Option<nat>)
    ensures hit == TopmostHit(sprites, contains)
  {
    var i: int := |sprites| - 1;
    while i >= 0
      invariant -1 <= i < |sprites|
      invariant TopmostHit(sprites, contains) == TopmostFrom(sprites, contains, i + 1)
    {
      var s := sprites[i];
      var visible := if s.isFaceUp then s.frontVisible else s.backVisible;
      if !visible {
        i := i - 1;
        continue;
      }
      var b := ShownBounds(s);
      if contains(b) {
        return Some(i);
      }
      i := i - 1;
    }
    return None;
  }

  /** The stage's pointer handler: a click the interaction handlers' global handler takes
    * (`handleGlobalClick(dealing)` returned true) reaches no card; otherwise the topmost
    * card whose shown side is visible and whose bounds hold the point, and no other, gets
    * `handleCardClick`. The result is the index of that card. */
  method OnStagePointer(sprites: seq<Entity>, globalHandled: bool, px: real, py: real) returns (clicked: Option<nat>)
    ensures globalHandled ==> clicked == None
    ensures !globalHandled && clicked.Some? ==>
      clicked.value < |sprites| && ShownVisible(sprites[clicked.value]) &&
      ClosedContains(ShownBounds(sprites[clicked.value]), px, py) &&
      forall j :: clicked.value < j < |sprites| ==> !Takes(sprites[j], PointIn(px, py))
    ensures !globalHandled && clicked.None? ==> forall j :: 0 <= j < |sprites| ==> !Takes(sprites[j], PointIn(px, py))
  {
    if globalHandled {
      return None;
    }
    clicked := HitTest(sprites, PointIn(px, py));
    if clicked.Some? {
      TopmostFromSome(sprites, PointIn(px, py), |sprites|, clicked.value);
    } else {
      TopmostFromNone(sprites, PointIn(px, py), |sprites|);
    }
  }
}
