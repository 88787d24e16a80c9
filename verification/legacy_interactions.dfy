/** The older card interaction handlers (`src/components/tarot/CardInteractions.ts`):
  * the same refs, handle map and flipping set as the application's handlers, but a
  * click first zooms out any other zoomed card, a zoom goes to a fixed scale of 1.8,
  * fades touch only the cards' alpha, and a finished zoom-in keeps its handle. */
module LegacyInteractions {
  import opened Common
  import opened Scene
  import opened Frames
  import opened Fades
  import opened Interactions

  /** Where an older zoom goes: in, to scale 1.8 at the centre of the renderer; out, to
    * scale 1 at the body. */
  function LegacyZoomTarget(screen: Size, bodyX: real, bodyY: real, zoomIn: bool): (p: ZoomPose)
    ensures zoomIn ==> p == ZoomPose(1.8, screen.width / 2.0, screen.height / 2.0)
    ensures !zoomIn ==> p == ZoomPose(1.0, bodyX, bodyY)
  {
    if zoomIn then ZoomPose(1.8, screen.width / 2.0, screen.height / 2.0) else ZoomPose(1.0, bodyX, bodyY)
  }

  /** The older handlers, working on the shared refs. */
  class LegacyCardInteractions {
    const refs: CanvasRefs

    constructor (refs: CanvasRefs)
      ensures this.refs == refs
    {
      this.refs := refs;
    }

    /** A zoomed card of the list is the recorded current card, and zooming needs the
      * application. */
    ghost predicate OneZoomed()
      reads refs, refs.sprites
    {
      forall e :: e in refs.sprites && e.zoomState == Zoomed ==> refs.hasApp && e == refs.currentZoomed
    }

    ghost predicate Valid()
      reads refs, refs.sprites
    {
      FramesValid(refs) && HandlesSafe(refs) && OneZoomed() &&
      (refs.currentZoomed != null ==> refs.currentZoomed in refs.sprites)
    }

    /** `handleCardClick(entity)`: another zoomed current card is zoomed out first (all
      * cards shown, current cleared); then a face-down card flips, a face-up normal card
      * zooms in with the others hidden and becomes current, and a face-up zoomed card
      * zooms out with all shown and current cleared. */
    method HandleCardClick(entity: Entity, now: real)
      requires Valid() && entity in refs.sprites
      modifies refs`pending, refs`nextFrame, refs`hoverAnim, refs`flipping, refs`currentZoomed
      modifies refs.sprites`eventMode, refs.sprites`zoomState, refs.sprites`scaleX, refs.sprites`scaleY
      modifies refs.sprites`zIndex
      ensures Valid()
      ensures var c := old(refs.currentZoomed);
        c != null && c != entity && old(c.zoomState) == Zoomed ==> c.zoomState == Normal
      ensures !old(entity.isFaceUp) ==>
        refs.currentZoomed == (if old(refs.currentZoomed) != entity && old(refs.currentZoomed) != null &&
                                  old(refs.currentZoomed.zoomState) == Zoomed
                               then null else old(refs.currentZoomed))
      ensures !old(entity.isFaceUp) && old(entity in refs.flipping) ==> refs.flipping == old(refs.flipping)
      ensures !old(entity.isFaceUp) && old(entity !in refs.flipping) ==>
        refs.flipping == old(refs.flipping) + {entity} && entity.zoomState == Normal
      ensures old(entity.isFaceUp) && old(entity.zoomState) == Normal ==>
        refs.currentZoomed == entity && (refs.hasApp ==> entity.zoomState == Zoomed)
      ensures old(entity.isFaceUp) && old(entity.zoomState) == Zoomed ==>
        refs.currentZoomed == null && entity.zoomState == Normal
    {
      ReleaseOther(entity, now);
      if !entity.isFaceUp {
        FlipEntity(entity, 260.0, now);
      } else if entity.zoomState == Normal {
        ZoomInCard(entity, now);
      } else {
        ZoomOutCard(entity, now);
      }
    }

    /** The first part of `handleCardClick`: a zoomed current card other than `entity`
      * is zoomed out, all cards are shown and the current card is cleared; afterwards
      * no card but `entity` is zoomed. */
    method ReleaseOther(entity: Entity, now: real)
      requires Valid() && entity in refs.sprites
      modifies refs`pending, refs`nextFrame, refs`hoverAnim, refs`currentZoomed
      modifies refs.sprites`eventMode, refs.sprites`zoomState, refs.sprites`zIndex
      ensures Valid()
      ensures forall e :: e in refs.sprites && e.zoomState == Zoomed ==> e == entity
      ensures entity.zoomState == old(entity.zoomState) && refs.flipping == old(refs.flipping)
      ensures var c := old(refs.currentZoomed);
        if c != null && c != entity && old(c.zoomState) == Zoomed then
          refs.currentZoomed == null && c.zoomState == Normal
        else
          refs.currentZoomed == c && refs.pending == old(refs.pending) && refs.hoverAnim == old(refs.hoverAnim)
    {
      var current := refs.currentZoomed;
      if current != null && current != entity && current.zoomState == Zoomed {
        ZoomOutCard(current, now);
      }
    }

    /** Zoom a face-up normal card in, hide the others and record it as current. */
    method ZoomInCard(entity: Entity, now: real)
      requires FramesValid(refs) && HandlesSafe(refs) && entity in refs.sprites
      requires forall e :: e in refs.sprites ==> e.zoomState == Normal
      modifies refs`pending, refs`nextFrame, refs`hoverAnim, refs`currentZoomed
      modifies refs.sprites`eventMode, refs.sprites`zoomState, refs.sprites`zIndex
      ensures Valid() && refs.currentZoomed == entity
      ensures refs.hasApp ==> entity.zoomState == Zoomed
    {
      ZoomToCard(entity, true, 300.0, now);
      HideOtherCards(entity, 300.0, now);
      refs.currentZoomed := entity;
    }

    /** Zoom a zoomed card out, show all cards and clear the current card. */
    method ZoomOutCard(entity: Entity, now: real)
      requires Valid() && entity in refs.sprites && entity.zoomState == Zoomed
      modifies refs`pending, refs`nextFrame, refs`hoverAnim, refs`currentZoomed
      modifies refs.sprites`eventMode, refs.sprites`zoomState, refs.sprites`zIndex
      ensures Valid() && refs.currentZoomed == null
      ensures forall e :: e in refs.sprites ==> e.zoomState == Normal
    {
      assert refs.hasApp && entity == refs.currentZoomed;
      assert forall e :: e in refs.sprites && e != entity ==> e.zoomState == Normal;
      refs.currentZoomed := null;
      ZoomToCard(entity, false, 300.0, now);
      assert forall e :: e in refs.sprites ==> e.zoomState == Normal;
      ShowAllCards(300.0, now);
    }

    /** `handleGlobalClick(dealing)`: blocked while dealing; otherwise a zoomed current
      * card is zoomed out, all cards are shown, current is cleared and the click counts
      * as handled. */
    method HandleGlobalClick(dealing: bool, now: real) returns (handled: bool)
      requires Valid()
      modifies refs`pending, refs`nextFrame, refs`hoverAnim, refs`currentZoomed
      modifies refs.sprites`eventMode, refs.sprites`zoomState, refs.sprites`zIndex
      ensures Valid()
      ensures handled <==>
        !dealing && old(refs.currentZoomed) != null && old(refs.currentZoomed.zoomState) == Zoomed
      ensures handled ==> refs.currentZoomed == null && old(refs.currentZoomed).zoomState == Normal
      ensures !handled ==>
        refs.currentZoomed == old(refs.currentZoomed) && refs.pending == old(refs.pending) &&
        refs.nextFrame == old(refs.nextFrame) && refs.hoverAnim == old(refs.hoverAnim)
    {
      if dealing {
        return false;
      }
      var current := refs.currentZoomed;
      if current != null && current.zoomState == Zoomed {
        ZoomOutCard(current, now);
        return true;
      }
      return false;
    }

    /** `hideOtherCards(zoomedEntity, ms)`: every other card fades to alpha 0; pointer
      * events are left as they are. */
    method HideOtherCards(zoomedEntity: Entity, ms: real, now: real)
      requires FramesValid(refs) && HandlesSafe(refs) && ms > 0.0
      modifies refs`pending, refs`nextFrame, refs.sprites`eventMode
      ensures FramesValid(refs) && HandlesSafe(refs)
      ensures var anims := FadeSteps(refs.sprites, old(Alphas(refs.sprites)), zoomedEntity, 0.0, now, ms, |refs.sprites|);
        refs.pending == Enqueue(old(refs.pending), old(refs.nextFrame), anims) &&
        refs.nextFrame == old(refs.nextFrame) + |anims|
      ensures forall i :: 0 <= i < |refs.sprites| ==> refs.sprites[i].eventMode == old(refs.sprites[i].eventMode)
    {
      FadeCards(zoomedEntity, 0.0, ms, now);
    }

    /** `showAllCards(ms)`: every card fades to alpha 1. */
    method ShowAllCards(ms: real, now: real)
      requires FramesValid(refs) && HandlesSafe(refs) && ms > 0.0
      modifies refs`pending, refs`nextFrame, refs.sprites`eventMode
      ensures FramesValid(refs) && HandlesSafe(refs)
      ensures var anims := FadeSteps(refs.sprites, old(Alphas(refs.sprites)), null, 1.0, now, ms, |refs.sprites|);
        refs.pending == Enqueue(old(refs.pending), old(refs.nextFrame), anims) &&
        refs.nextFrame == old(refs.nextFrame) + |anims|
      ensures forall i :: 0 <= i < |refs.sprites| ==> refs.sprites[i].eventMode == old(refs.sprites[i].eventMode)
    {
      FadeCards(null, 1.0, ms, now);
    }

    /** The fade loop of both older handlers, with a card already at `to` skipped and the
      * loop going on; the hide loop as written ends at such a card instead, which
      * `Fades.QueueFadesUntilFaded` models. */
    method FadeCards(skip: Entity?, to: real, ms: real, now: real)
      requires FramesValid(refs) && HandlesSafe(refs) && ms > 0.0
      modifies refs`pending, refs`nextFrame, refs.sprites`eventMode
      ensures FramesValid(refs) && HandlesSafe(refs)
      ensures var anims := FadeSteps(refs.sprites, old(Alphas(refs.sprites)), skip, to, now, ms, |refs.sprites|);
        refs.pending == Enqueue(old(refs.pending), old(refs.nextFrame), anims) &&
        refs.nextFrame == old(refs.nextFrame) + |anims|
      ensures forall i :: 0 <= i < |refs.sprites| ==> refs.sprites[i].eventMode == old(refs.sprites[i].eventMode)
    {
      ghost var p0, n0, al := refs.pending, refs.nextFrame, Alphas(refs.sprites);
      ghost var fades := FadeSteps(refs.sprites, al, skip, to, now, ms, |refs.sprites|);
      QueueFades(refs, skip, None, to, now, ms);
      FadeStepsAreFades(refs.sprites, al, skip, to, now, ms, |refs.sprites|);
      EnqueueKeepsSafe(p0, refs.hoverAnim, n0, fades);
    }

    /** `zoomToCard(entity, zoomIn, ms)`: the card's previous handle is cancelled (and
      * kept in the map); without the application nothing else happens; otherwise the
      * zoom state is set, a zoom step from the current `scale.x` and position towards
      * `LegacyZoomTarget` is queued and its handle recorded, and the z-index raised or
      * restored. */
    method ZoomToCard(entity: Entity, zoomIn: bool, ms: real, now: real)
      requires FramesValid(refs) && HandlesSafe(refs) && ms > 0.0
      modifies refs`pending, refs`nextFrame, refs`hoverAnim, entity`zoomState, entity`zIndex
      ensures FramesValid(refs) && HandlesSafe(refs)
      ensures !refs.hasApp ==>
        refs.pending == CancelHandle(old(refs.pending), old(refs.hoverAnim), entity) &&
        refs.nextFrame == old(refs.nextFrame) && refs.hoverAnim == old(refs.hoverAnim) &&
        entity.zoomState == old(entity.zoomState) && entity.zIndex == old(entity.zIndex)
      ensures refs.hasApp ==>
        var t := LegacyZoomTarget(refs.screen, entity.body.x, entity.body.y, zoomIn);
        entity.zoomState == (if zoomIn then Zoomed else Normal) &&
        entity.zIndex == (if zoomIn then 999999.0 else 100.0) &&
        refs.hoverAnim == old(refs.hoverAnim)[entity := old(refs.nextFrame)] &&
        refs.pending == CancelHandle(old(refs.pending), old(refs.hoverAnim), entity)[old(refs.nextFrame) :=
          ZoomStep(entity, entity.scaleX, t.scale, entity.x, entity.y, t.x, t.y, now, ms, zoomIn, true)] &&
        refs.nextFrame == old(refs.nextFrame) + 1
    {
      ghost var p0, h0, n0 := refs.pending, refs.hoverAnim, refs.nextFrame;
      CancelHandleOf(refs, entity);
      if !refs.hasApp {
        CancelHandleKeepsTracking(p0, h0, refs.flipping, n0, entity);
        return;
      }
      var t := LegacyZoomTarget(refs.screen, entity.body.x, entity.body.y, zoomIn);
      entity.zoomState := if zoomIn then Zoomed else Normal;
      var a := ZoomStep(entity, entity.scaleX, t.scale, entity.x, entity.y, t.x, t.y, now, ms, zoomIn, true);
      var id := refs.RequestFrame(a);
      refs.hoverAnim := refs.hoverAnim[entity := id];
      entity.zIndex := if zoomIn then 999999.0 else 100.0;
      StartZoomKeepsTracking(p0, h0, refs.flipping, n0, a);
    }

    /** `flipEntity(entity, ms)`: ignored while the card flips; otherwise the card joins
      * the flipping set, its zoom handle is cancelled and dropped, its scale becomes
      * (1, 1), its zoom state normal, and a flip step around scale 1 is queued. */
    method FlipEntity(entity: Entity, ms: real, now: real)
      requires FramesValid(refs) && HandlesSafe(refs) && ms > 0.0
      modifies refs`pending, refs`nextFrame, refs`hoverAnim, refs`flipping
      modifies entity`scaleX, entity`scaleY, entity`zoomState
      ensures FramesValid(refs) && HandlesSafe(refs)
      ensures old(entity in refs.flipping) ==>
        refs.pending == old(refs.pending) && refs.nextFrame == old(refs.nextFrame) &&
        refs.hoverAnim == old(refs.hoverAnim) && refs.flipping == old(refs.flipping) &&
        entity.scaleX == old(entity.scaleX) && entity.scaleY == old(entity.scaleY) &&
        entity.zoomState == old(entity.zoomState)
      ensures !old(entity in refs.flipping) ==>
        refs.flipping == old(refs.flipping) + {entity} &&
        refs.hoverAnim == (if entity in old(refs.hoverAnim) && old(refs.hoverAnim)[entity] != 0
                           then old(refs.hoverAnim) - {entity} else old(refs.hoverAnim)) &&
        refs.pending == CancelHandle(old(refs.pending), old(refs.hoverAnim), entity)[old(refs.nextFrame) :=
          FlipStep(entity, now, ms, 1.0, false, true)] &&
        refs.nextFrame == old(refs.nextFrame) + 1 &&
        entity.scaleX == 1.0 && entity.scaleY == 1.0 && entity.zoomState == Normal
    {
      if entity in refs.flipping {
        return;
      }
      StartFlip(refs, entity, ms, now, 1.0, true);
    }

    /** One animation frame under the older handlers. */
    method Frame(id: nat, now: real)
      requires Valid() && id in refs.pending
      modifies refs, AnimFrame(refs.pending[id])
      ensures Valid()
      ensures id !in refs.pending
    {
      RunFrame(refs, id, now);
    }
  }
}
