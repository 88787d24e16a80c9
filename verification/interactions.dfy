/** The card interaction handlers of the canvas (`CardInteractions`): a click on a card
  * flips it, zooms it in or out, or moves the focus to it; zooming in hides the other
  * cards and the label layer, zooming out shows them again. Every animation a handler
  * starts is a step queued in the refs' animation-frame queue. */
module Interactions {
  import opened Common
  import Profiles
  import opened Scene
  import opened Frames
  import opened Fades

  /** Above this difference the two scale components are made equal before a zoom. */
  const UniformTolerance: real := 0.0001

  /** The scale a zoom starts from: the larger component when the two differ by more
    * than the tolerance, `scale.x` otherwise. */
  function UniformScale(sx: real, sy: real): real
  {
    if AbsR(sx - sy) > UniformTolerance then MaxR(sx, sy) else sx
  }

  /** The start scale is one of the two components, never below `scale.x`, and, when the
    * components differed, the larger one. */
  lemma UniformScaleIsLarger(sx: real, sy: real)
    ensures UniformScale(sx, sy) == sx || UniformScale(sx, sy) == sy
    ensures UniformScale(sx, sy) >= sx
    ensures AbsR(sx - sy) > UniformTolerance ==> UniformScale(sx, sy) >= sy
    ensures AbsR(sx - sy) <= UniformTolerance ==> UniformScale(sx, sy) == sx
  {
  }

  /** Where a zoom goes: a zoom-in to the active profile's zoom scale for the card's view,
    * at the centre of the screen; a zoom-out to the base card scale, at the body. */
  function ZoomTarget(profile: Profiles.ProfileId, screen: Size, base: real, view: Profiles.ViewMetrics,
                      bodyX: real, bodyY: real, zoomIn: bool): (p: ZoomPose)
    ensures zoomIn ==> p.scale >= 1.5 * Or1(view.scaleX)
    ensures zoomIn ==> p.x == screen.width / 2.0 && p.y == screen.height / 2.0
    ensures !zoomIn ==> p.scale == base && p.x == bodyX && p.y == bodyY
  {
    if zoomIn then
      Profiles.ProfileZoomNeverShrinks(profile, screen, view);
      ZoomPose(Profiles.ProfileOf(profile).computeZoomScale(screen, view), screen.width / 2.0, screen.height / 2.0)
    else
      ZoomPose(base, bodyX, bodyY)
  }

  /** The label-layer fade `hideOtherCards` and `showAllCards` queue: one, when the
    * application and its label layer exist and the layer's alpha is not already `to`. */
  function LayerFade(hasApp: bool, layerAlpha: Option<real>, to: real, now: real, ms: real): (r: seq<Anim>)
    ensures |r| <= 1
    ensures |r| == 1 <==> hasApp && layerAlpha.Some? && layerAlpha.value != to
    ensures |r| == 1 ==> r[0] == LayerFadeStep(layerAlpha.value, to, now, ms)
  {
    if hasApp && layerAlpha.Some? && layerAlpha.value != to then [LayerFadeStep(layerAlpha.value, to, now, ms)] else []
  }

  /** Cancelling the handle of `a.e`, queueing the zoom step `a` under the next handle and
    * recording that handle for `a.e` keeps the bookkeeping. */
  lemma StartZoomKeepsTracking(pending: map<nat, Anim>, hoverAnim: map<Entity, nat>, flipping: set<Entity>,
                               next: nat, a: Anim)
    requires forall i :: i in pending ==> 0 < i < next
    requires ZoomsTrackedIn(pending, hoverAnim) && FlipsTrackedIn(pending, flipping)
    requires HandlesSafeIn(pending, hoverAnim, next) && a.ZoomStep?
    ensures var p2 := CancelHandle(pending, hoverAnim, a.e)[next := a];
      var h2 := hoverAnim[a.e := next];
      ZoomsTrackedIn(p2, h2) && FlipsTrackedIn(p2, flipping) && HandlesSafeIn(p2, h2, next + 1) &&
      (HandlesLiveIn(pending, hoverAnim) ==> HandlesLiveIn(p2, h2))
  {
    CancelHandleKeepsTracking(pending, hoverAnim, flipping, next, a.e);
    AddZoomKeepsTracking(CancelHandle(pending, hoverAnim, a.e), hoverAnim, flipping, next, a);
  }

  /** Cancelling and dropping the handle of `b.e`, queueing the flip step `b` under the
    * next handle and adding `b.e` to the flipping set keeps the bookkeeping and leaves no
    * zoom step of `b.e` queued. */
  lemma StartFlipKeepsTracking(pending: map<nat, Anim>, hoverAnim: map<Entity, nat>, flipping: set<Entity>,
                               next: nat, b: Anim)
    requires forall i :: i in pending ==> 0 < i < next
    requires ZoomsTrackedIn(pending, hoverAnim) && FlipsTrackedIn(pending, flipping)
    requires HandlesSafeIn(pending, hoverAnim, next) && b.FlipStep? && b.e !in flipping
    ensures var p2 := CancelHandle(pending, hoverAnim, b.e)[next := b];
      var h2 := if b.e in hoverAnim && hoverAnim[b.e] != 0 then hoverAnim - {b.e} else hoverAnim;
      ZoomsTrackedIn(p2, h2) && FlipsTrackedIn(p2, flipping + {b.e}) && HandlesSafeIn(p2, h2, next + 1) &&
      (HandlesLiveIn(pending, hoverAnim) ==> HandlesLiveIn(p2, h2)) &&
      (forall i :: i in p2 && p2[i].ZoomStep? ==> p2[i].e != b.e)
  {
    CancelHandleKeepsTracking(pending, hoverAnim, flipping, next, b.e);
    var p1 := CancelHandle(pending, hoverAnim, b.e);
    var h1 := if b.e in hoverAnim && hoverAnim[b.e] != 0 then hoverAnim - {b.e} else hoverAnim;
    assert ZoomsTrackedIn(p1, h1);
    if HandlesLiveIn(pending, hoverAnim) && !(b.e in hoverAnim && hoverAnim[b.e] != 0) {
      assert b.e !in hoverAnim;
      assert h1 == hoverAnim - {b.e};
    }
    AddFlipKeepsTracking(p1, h1, flipping, next, b);
  }

  /** Queueing card fades and then label-layer fades under handles from `first` on keeps
    * the bookkeeping and every handle below `first`. */
  lemma FadesKeepBookkeeping(pending: map<nat, Anim>, hoverAnim: map<Entity, nat>, flipping: set<Entity>,
                             first: nat, fades: seq<Anim>, layer: seq<Anim>)
    requires forall i :: i in pending ==> i < first
    requires ZoomsTrackedIn(pending, hoverAnim) && FlipsTrackedIn(pending, flipping)
    requires HandlesSafeIn(pending, hoverAnim, first)
    requires forall a :: a in fades ==> a.FadeStep?
    requires forall a :: a in layer ==> a.LayerFadeStep?
    ensures var p2 := Enqueue(pending, first, fades + layer);
      ZoomsTrackedIn(p2, hoverAnim) && FlipsTrackedIn(p2, flipping) &&
      HandlesSafeIn(p2, hoverAnim, first + |fades + layer|) &&
      (HandlesLiveIn(pending, hoverAnim) ==> HandlesLiveIn(p2, hoverAnim)) &&
      forall i :: i < first ==> (i in p2 <==> i in pending) && (i in p2 ==> p2[i] == pending[i])
  {
    var anims := fades + layer;
    assert forall k :: 0 <= k < |anims| ==> anims[k].FadeStep? || anims[k].LayerFadeStep? by {
      forall k | 0 <= k < |anims| ensures anims[k].FadeStep? || anims[k].LayerFadeStep? {
        if k < |fades| {
          assert anims[k] in fades;
        } else {
          assert anims[k] in layer;
        }
      }
    }
    EnqueueFadesKeepsTracking(pending, hoverAnim, flipping, first, anims);
    EnqueueKeepsSafe(pending, hoverAnim, first, anims);
    EnqueueHandles(pending, first, anims);
  }

  /** After the previous zoom of `e` is cancelled, its new zoom step queued under `next`
    * and more steps queued above `next`: the handles below `next` are the old ones minus
    * `e`'s zoom, and the step under `next` is the only zoom of `e`. */
  lemma ZoomQueued(pending: map<nat, Anim>, hoverAnim: map<Entity, nat>, flipping: set<Entity>, next: nat,
                   queued: map<nat, Anim>, after: map<nat, Anim>, hoverAfter: map<Entity, nat>, e: Entity)
    requires forall i :: i in pending ==> 0 < i < next
    requires ZoomsTrackedIn(pending, hoverAnim) && FlipsTrackedIn(pending, flipping)
    requires HandlesSafeIn(pending, hoverAnim, next)
    requires next in queued && queued[next].ZoomStep? && queued[next].e == e
    requires queued == CancelHandle(pending, hoverAnim, e)[next := queued[next]]
    requires forall i :: i < next + 1 ==> (i in after <==> i in queued) && (i in after ==> after[i] == queued[i])
    requires ZoomsTrackedIn(after, hoverAfter) && e in hoverAfter && hoverAfter[e] == next
    ensures next in after && after[next] == queued[next]
    ensures forall i :: i < next ==> (i in after <==> (i in pending && !(pending[i].ZoomStep? && pending[i].e == e)))
    ensures forall i :: i < next && i in after ==> after[i] == pending[i]
    ensures forall i :: i in after && after[i].ZoomStep? && after[i].e == e ==> i == next
  {
    CancelHandleKeepsTracking(pending, hoverAnim, flipping, next, e);
  }

  /** `if (prev) { cancelAnimationFrame(prev); map.delete(entity) }`: cancel and drop the
    * handle the map holds for `e`, when there is one and it is not 0. */
  method DropHandleOf(refs: CanvasRefs, e: Entity)
    requires refs.QueueValid()
    modifies refs`pending, refs`hoverAnim
    ensures refs.QueueValid()
    ensures refs.pending == CancelHandle(old(refs.pending), old(refs.hoverAnim), e)
    ensures refs.hoverAnim ==
      if e in old(refs.hoverAnim) && old(refs.hoverAnim)[e] != 0 then old(refs.hoverAnim) - {e} else old(refs.hoverAnim)
  {
    if e in refs.hoverAnim && refs.hoverAnim[e] != 0 {
      refs.CancelFrame(refs.hoverAnim[e]);
      refs.hoverAnim := refs.hoverAnim - {e};
    }
  }

  /** The start of a flip, shared by both handler classes: the card joins the flipping
    * set, its zoom handle is cancelled and dropped, both scale components become `base`,
    * its zoom state normal, and a flip step around `base` is queued; the bookkeeping is
    * kept and no zoom of the card is left queued. */
  method StartFlip(refs: CanvasRefs, entity: Entity, ms: real, now: real, base: real, legacy: bool)
    requires FramesValid(refs) && HandlesSafe(refs) && ms > 0.0 && entity !in refs.flipping
    modifies refs`pending, refs`nextFrame, refs`hoverAnim, refs`flipping
    modifies entity`scaleX, entity`scaleY, entity`zoomState
    ensures FramesValid(refs) && HandlesSafe(refs) && (old(HandlesLive(refs)) ==> HandlesLive(refs))
    ensures refs.flipping == old(refs.flipping) + {entity}
    ensures refs.hoverAnim == (if entity in old(refs.hoverAnim) && old(refs.hoverAnim)[entity] != 0
                               then old(refs.hoverAnim) - {entity} else old(refs.hoverAnim))
    ensures refs.pending == CancelHandle(old(refs.pending), old(refs.hoverAnim), entity)[old(refs.nextFrame) :=
      FlipStep(entity, now, ms, base, false, legacy)]
    ensures refs.nextFrame == old(refs.nextFrame) + 1
    ensures entity.scaleX == base && entity.scaleY == base && entity.zoomState == Normal
    ensures forall i :: i in refs.pending && refs.pending[i].ZoomStep? ==> refs.pending[i].e != entity
  {
    ghost var p0, h0, f0, n0 := refs.pending, refs.hoverAnim, refs.flipping, refs.nextFrame;
    var b := FlipStep(entity, now, ms, base, false, legacy);
    refs.flipping := refs.flipping + {entity};
    DropHandleOf(refs, entity);
    entity.scaleX, entity.scaleY := base, base;
    entity.zoomState := Normal;
    var id := refs.RequestFrame(b);
    StartFlipKeepsTracking(p0, h0, f0, n0, b);
  }

  /** The card a zoom-out of the current card writes to: none when no card is zoomed. */
  function CurrentCard(refs: CanvasRefs): set<Entity>
    reads refs
  {
    if refs.currentZoomed == null then {} else {refs.currentZoomed}
  }

  /** The handlers of the application's canvas, working on the shared refs. */
  class CardInteractions {
    const refs: CanvasRefs

    constructor (refs: CanvasRefs)
      ensures this.refs == refs
    {
      this.refs := refs;
    }

    /** A card in the list is zoomed only if it is the recorded current card, so at most
      * one card is zoomed, and only with the application (zooming needs it). */
    ghost predicate OneZoomed()
      reads refs, refs.sprites
    {
      forall e :: e in refs.sprites && e.zoomState == Zoomed ==> refs.hasApp && e == refs.currentZoomed
    }

    /** The frame bookkeeping, safe handles, at most one zoomed card, and the current card
      * in the list. */
    ghost predicate Valid()
      reads refs, refs.sprites
    {
      FramesValid(refs) && HandlesSafe(refs) && OneZoomed() &&
      (refs.currentZoomed != null ==> refs.currentZoomed in refs.sprites)
    }

    /** `handleCardClick(entity)`: ignored while the card flips; a face-down card flips; a
      * face-up card zooms in when none is zoomed, zooms out when it is the zoomed one, and
      * otherwise takes the focus from the zoomed one. */
    method HandleCardClick(entity: Entity, now: real)
      requires Valid() && entity in refs.sprites
      modifies refs`pending, refs`nextFrame, refs`hoverAnim, refs`flipping, refs`currentZoomed
      modifies refs.sprites`eventMode, refs.sprites`zoomState, refs.sprites`scaleX, refs.sprites`scaleY
      modifies refs.sprites`zIndex
      ensures Valid()
      ensures old(entity in refs.flipping) ==>
        refs.pending == old(refs.pending) && refs.nextFrame == old(refs.nextFrame) &&
        refs.hoverAnim == old(refs.hoverAnim) && refs.flipping == old(refs.flipping) &&
        refs.currentZoomed == old(refs.currentZoomed) &&
        forall e :: e in refs.sprites ==> e.State() == old(e.State())
      ensures !old(entity in refs.flipping) && !old(entity.isFaceUp) ==>
        refs.flipping == old(refs.flipping) + {entity} && refs.currentZoomed == old(refs.currentZoomed) &&
        old(refs.nextFrame) in refs.pending &&
        refs.pending[old(refs.nextFrame)] == FlipStep(entity, now, 260.0, old(refs.baseCardScale), false, false)
      ensures !old(entity in refs.flipping) && old(entity.isFaceUp) ==>
        refs.flipping == old(refs.flipping) &&
        refs.currentZoomed == (if old(refs.currentZoomed) == entity then null else entity) &&
        (refs.hasApp ==> entity.zoomState == if old(refs.currentZoomed) == entity then Normal else Zoomed) &&
        (refs.hasApp && old(refs.currentZoomed) != null ==> old(refs.currentZoomed).zoomState == Normal)
    {
      if entity in refs.flipping {
        return;
      }
      if !entity.isFaceUp {
        FlipEntity(entity, 260.0, now);
        return;
      }
      FocusCard(entity, now);
    }

    /** The face-up part of `handleCardClick`: zoom in when no card is zoomed, zoom out
      * when the card is the zoomed one, otherwise zoom the other out and this one in. */
    method FocusCard(entity: Entity, now: real)
      requires Valid() && entity in refs.sprites
      modifies refs`pending, refs`nextFrame, refs`hoverAnim, refs`currentZoomed
      modifies refs.sprites`eventMode, refs.sprites`zoomState, refs.sprites`scaleX, refs.sprites`scaleY
      modifies refs.sprites`zIndex
      ensures Valid()
      ensures refs.currentZoomed == (if old(refs.currentZoomed) == entity then null else entity)
      ensures refs.hasApp ==> entity.zoomState == if old(refs.currentZoomed) == entity then Normal else Zoomed
      ensures refs.hasApp && old(refs.currentZoomed) != null ==> old(refs.currentZoomed).zoomState == Normal
    {
      var zoomed := refs.currentZoomed;
      if zoomed == null {
        ZoomIn(entity, now);
        return;
      }
      if zoomed == entity {
        ZoomOutCurrent(now);
        refs.currentZoomed := null;
        return;
      }
      ZoomOutCurrent(now);
      ZoomIn(entity, now);
    }

    /** No card of the list is zoomed. */
    ghost predicate NoneZoomed()
      reads refs, refs.sprites
    {
      forall e :: e in refs.sprites ==> e.zoomState == Normal
    }

    /** Zoom `entity` in over 400 ms and record it as the current card. */
    method ZoomIn(entity: Entity, now: real)
      requires FramesValid(refs) && HandlesSafe(refs) && NoneZoomed() && entity in refs.sprites
      modifies refs`pending, refs`nextFrame, refs`hoverAnim, refs`currentZoomed
      modifies refs.sprites`eventMode, refs.sprites`zoomState, refs.sprites`scaleX, refs.sprites`scaleY
      modifies refs.sprites`zIndex
      ensures Valid() && refs.currentZoomed == entity
      ensures refs.hasApp ==> entity.zoomState == Zoomed
      ensures forall e :: e in refs.sprites && e != entity ==> e.zoomState == old(e.zoomState)
    {
      ZoomToCard(entity, true, 400.0, now);
      refs.currentZoomed := entity;
    }

    /** Zoom the current card out (`unzoomCurrent`); afterwards no card is zoomed. */
    method ZoomOutCurrent(now: real)
      requires Valid()
      modifies refs`pending, refs`nextFrame, refs`hoverAnim
      modifies refs.sprites`eventMode, refs.sprites`zoomState, refs.sprites`scaleX, refs.sprites`scaleY
      modifies refs.sprites`zIndex
      ensures FramesValid(refs) && HandlesSafe(refs) && NoneZoomed()
      ensures refs.currentZoomed == old(refs.currentZoomed)
      ensures refs.currentZoomed == null || refs.currentZoomed in refs.sprites
      ensures refs.hasApp && refs.currentZoomed != null ==> refs.currentZoomed.zoomState == Normal
    {
      UnzoomCurrent(now);
    }

    /** `hideOtherCards(zoomedEntity, ms)`: every other card stops taking pointer events
      * and fades to alpha 0, and the label layer fades out. */
    method HideOtherCards(zoomedEntity: Entity, ms: real, now: real)
      requires FramesValid(refs) && HandlesSafe(refs) && ms > 0.0
      modifies refs`pending, refs`nextFrame, refs.sprites`eventMode
      ensures FramesValid(refs) && HandlesSafe(refs) && (old(HandlesLive(refs)) ==> HandlesLive(refs))
      ensures var anims := FadeSteps(refs.sprites, old(Alphas(refs.sprites)), zoomedEntity, 0.0, now, ms, |refs.sprites|) +
                           LayerFade(refs.hasApp, refs.labelLayerAlpha, 0.0, now, ms);
        refs.pending == Enqueue(old(refs.pending), old(refs.nextFrame), anims) &&
        refs.nextFrame == old(refs.nextFrame) + |anims|
      ensures forall i :: 0 <= i < |refs.sprites| ==>
        refs.sprites[i].eventMode == if refs.sprites[i] != zoomedEntity then NoEvents else old(refs.sprites[i].eventMode)
      ensures forall i :: i < old(refs.nextFrame) ==>
        (i in refs.pending <==> i in old(refs.pending)) && (i in refs.pending ==> refs.pending[i] == old(refs.pending)[i])
    {
      FadeCards(zoomedEntity, NoEvents, 0.0, ms, now);
    }

    /** `showAllCards(ms)`: every card takes pointer events again and fades to alpha 1, and
      * the label layer fades in. */
    method ShowAllCards(ms: real, now: real)
      requires FramesValid(refs) && HandlesSafe(refs) && ms > 0.0
      modifies refs`pending, refs`nextFrame, refs.sprites`eventMode
      ensures FramesValid(refs) && HandlesSafe(refs) && (old(HandlesLive(refs)) ==> HandlesLive(refs))
      ensures var anims := FadeSteps(refs.sprites, old(Alphas(refs.sprites)), null, 1.0, now, ms, |refs.sprites|) +
                           LayerFade(refs.hasApp, refs.labelLayerAlpha, 1.0, now, ms);
        refs.pending == Enqueue(old(refs.pending), old(refs.nextFrame), anims) &&
        refs.nextFrame == old(refs.nextFrame) + |anims|
      ensures forall i :: 0 <= i < |refs.sprites| ==> refs.sprites[i].eventMode == Static
      ensures forall i :: i < old(refs.nextFrame) ==>
        (i in refs.pending <==> i in old(refs.pending)) && (i in refs.pending ==> refs.pending[i] == old(refs.pending)[i])
    {
      FadeCards(null, Static, 1.0, ms, now);
    }

    /** The loop shared by `hideOtherCards` and `showAllCards`, then the label-layer fade. */
    method FadeCards(skip: Entity?, mode: EventMode, to: real, ms: real, now: real)
      requires FramesValid(refs) && HandlesSafe(refs) && ms > 0.0
      modifies refs`pending, refs`nextFrame, refs.sprites`eventMode
      ensures FramesValid(refs) && HandlesSafe(refs) && (old(HandlesLive(refs)) ==> HandlesLive(refs))
      ensures var anims := FadeSteps(refs.sprites, old(Alphas(refs.sprites)), skip, to, now, ms, |refs.sprites|) +
                           LayerFade(refs.hasApp, refs.labelLayerAlpha, to, now, ms);
        refs.pending == Enqueue(old(refs.pending), old(refs.nextFrame), anims) &&
        refs.nextFrame == old(refs.nextFrame) + |anims|
      ensures forall i :: 0 <= i < |refs.sprites| ==>
        refs.sprites[i].eventMode == if refs.sprites[i] != skip then mode else old(refs.sprites[i].eventMode)
      ensures forall i :: i < old(refs.nextFrame) ==>
        (i in refs.pending <==> i in old(refs.pending)) && (i in refs.pending ==> refs.pending[i] == old(refs.pending)[i])
    {
      ghost var p0, n0, al := refs.pending, refs.nextFrame, Alphas(refs.sprites);
      ghost var fades := FadeSteps(refs.sprites, al, skip, to, now, ms, |refs.sprites|);
      ghost var layer := LayerFade(refs.hasApp, refs.labelLayerAlpha, to, now, ms);
      QueueFades(refs, skip, Some(mode), to, now, ms);
      ghost var p1 := refs.pending;
      QueueLayerFade(to, now, ms);
      assert refs.pending == Enqueue(p1, n0 + |fades|, layer);
      EnqueueAppend(p0, n0, fades, layer);
      FadeStepsAreFades(refs.sprites, al, skip, to, now, ms, |refs.sprites|);
      FadesKeepBookkeeping(p0, refs.hoverAnim, refs.flipping, n0, fades, layer);
    }

    /** The label-layer part of both handlers: with the application and a label layer
      * whose alpha differs from `to`, queue its fade. */
    method QueueLayerFade(to: real, now: real, ms: real)
      requires refs.QueueValid() && ms > 0.0
      modifies refs`pending, refs`nextFrame
      ensures refs.QueueValid()
      ensures refs.pending == Enqueue(old(refs.pending), old(refs.nextFrame), LayerFade(refs.hasApp, refs.labelLayerAlpha, to, now, ms))
      ensures refs.nextFrame == old(refs.nextFrame) + |LayerFade(refs.hasApp, refs.labelLayerAlpha, to, now, ms)|
    {
      EnqueueAtMostOne(refs.pending, refs.nextFrame, LayerFadeStep(0.0, to, now, ms));
      if refs.hasApp && refs.labelLayerAlpha.Some? && refs.labelLayerAlpha.value != to {
        var a := LayerFadeStep(refs.labelLayerAlpha.value, to, now, ms);
        EnqueueAtMostOne(refs.pending, refs.nextFrame, a);
        var id := refs.RequestFrame(a);
      }
    }

    /** `zoomToCard(entity, zoomIn, ms)`: without the application nothing happens;
      * otherwise the card's previous zoom is cancelled, its scale made uniform, a zoom
      * step towards `ZoomTarget` queued and its handle recorded, and the card is raised
      * with the others hidden (zoom-in) or lowered with all shown (zoom-out). */
    method ZoomToCard(entity: Entity, zoomIn: bool, ms: real, now: real)
      requires FramesValid(refs) && HandlesSafe(refs) && ms > 0.0
      modifies refs`pending, refs`nextFrame, refs`hoverAnim
      modifies entity`scaleX, entity`scaleY, entity`zoomState, entity`zIndex, refs.sprites`eventMode
      ensures FramesValid(refs) && HandlesSafe(refs) && (old(HandlesLive(refs)) ==> HandlesLive(refs))
      ensures !refs.hasApp ==>
        refs.pending == old(refs.pending) && refs.nextFrame == old(refs.nextFrame) &&
        refs.hoverAnim == old(refs.hoverAnim) && entity.scaleX == old(entity.scaleX) &&
        entity.scaleY == old(entity.scaleY) && entity.zoomState == old(entity.zoomState) &&
        entity.zIndex == old(entity.zIndex) &&
        forall i :: 0 <= i < |refs.sprites| ==> refs.sprites[i].eventMode == old(refs.sprites[i].eventMode)
      ensures refs.hasApp ==>
        var s := UniformScale(old(entity.scaleX), old(entity.scaleY));
        var t := ZoomTarget(refs.profile, refs.screen, refs.baseCardScale,
          ViewMetricsOf(entity.frontWidth, entity.frontHeight, entity.scaleX, entity.scaleY),
          entity.body.x, entity.body.y, zoomIn);
        entity.scaleX == s &&
        entity.scaleY == (if AbsR(old(entity.scaleX) - old(entity.scaleY)) > UniformTolerance then s else old(entity.scaleY)) &&
        entity.zoomState == (if zoomIn then Zoomed else Normal) &&
        entity.zIndex == (if zoomIn then 999999.0 else 100.0) &&
        refs.hoverAnim == old(refs.hoverAnim)[entity := old(refs.nextFrame)] &&
        old(refs.nextFrame) in refs.pending &&
        refs.pending[old(refs.nextFrame)] ==
          ZoomStep(entity, s, t.scale, old(entity.x), old(entity.y), t.x, t.y, now, ms, zoomIn, false)
      ensures refs.hasApp ==>
        (forall i :: i < old(refs.nextFrame) ==>
          (i in refs.pending <==> (i in old(refs.pending) &&
                                   !(old(refs.pending)[i].ZoomStep? && old(refs.pending)[i].e == entity)))) &&
        (forall i :: i < old(refs.nextFrame) && i in refs.pending ==> refs.pending[i] == old(refs.pending)[i]) &&
        (forall i :: i in refs.pending && refs.pending[i].ZoomStep? && refs.pending[i].e == entity ==>
          i == old(refs.nextFrame)) &&
        (forall i :: 0 <= i < |refs.sprites| ==>
          refs.sprites[i].eventMode ==
            (if !zoomIn then Static else if refs.sprites[i] != entity then NoEvents else old(refs.sprites[i].eventMode)))
    {
      if !refs.hasApp {
        return;
      }
      ghost var p0, h0, n0 := refs.pending, refs.hoverAnim, refs.nextFrame;
      StartZoom(entity, zoomIn, ms, now);
      ghost var p1 := refs.pending;
      Present(entity, zoomIn, now);
      ZoomQueued(p0, h0, refs.flipping, n0, p1, refs.pending, refs.hoverAnim, entity);
    }

    /** The end of `zoomToCard`: a zoomed-in card is raised to the top and the others
      * hidden in 300 ms; a zoomed-out card goes back to z-index 100 and all are shown. */
    method Present(entity: Entity, zoomIn: bool, now: real)
      requires FramesValid(refs) && HandlesSafe(refs)
      modifies refs`pending, refs`nextFrame, entity`zIndex, refs.sprites`eventMode
      ensures FramesValid(refs) && HandlesSafe(refs) && (old(HandlesLive(refs)) ==> HandlesLive(refs))
      ensures entity.zIndex == if zoomIn then 999999.0 else 100.0
      ensures forall i :: i < old(refs.nextFrame) ==>
        (i in refs.pending <==> i in old(refs.pending)) && (i in refs.pending ==> refs.pending[i] == old(refs.pending)[i])
      ensures forall i :: 0 <= i < |refs.sprites| ==>
        refs.sprites[i].eventMode ==
          (if !zoomIn then Static else if refs.sprites[i] != entity then NoEvents else old(refs.sprites[i].eventMode))
    {
      if zoomIn {
        entity.zIndex := 999999.0;
        HideOtherCards(entity, 300.0, now);
      } else {
        entity.zIndex := 100.0;
        ShowAllCards(300.0, now);
      }
    }

    /** The zoom itself: cancel the previous handle, make the scale uniform, set the zoom
      * state, queue the step and record its handle. */
    method StartZoom(entity: Entity, zoomIn: bool, ms: real, now: real)
      requires FramesValid(refs) && HandlesSafe(refs) && ms > 0.0
      modifies refs`pending, refs`nextFrame, refs`hoverAnim
      modifies entity`scaleX, entity`scaleY, entity`zoomState
      ensures FramesValid(refs) && HandlesSafe(refs) && (old(HandlesLive(refs)) ==> HandlesLive(refs))
      ensures var s := UniformScale(old(entity.scaleX), old(entity.scaleY));
        var t := ZoomTarget(refs.profile, refs.screen, refs.baseCardScale,
          ViewMetricsOf(entity.frontWidth, entity.frontHeight, entity.scaleX, entity.scaleY),
          entity.body.x, entity.body.y, zoomIn);
        entity.scaleX == s &&
        entity.scaleY == (if AbsR(old(entity.scaleX) - old(entity.scaleY)) > UniformTolerance then s else old(entity.scaleY)) &&
        entity.zoomState == (if zoomIn then Zoomed else Normal) &&
        refs.hoverAnim == old(refs.hoverAnim)[entity := old(refs.nextFrame)] &&
        refs.pending == CancelHandle(old(refs.pending), old(refs.hoverAnim), entity)[old(refs.nextFrame) :=
          ZoomStep(entity, s, t.scale, old(entity.x), old(entity.y), t.x, t.y, now, ms, zoomIn, false)] &&
        refs.nextFrame == old(refs.nextFrame) + 1
    {
      ghost var p0, h0, n0 := refs.pending, refs.hoverAnim, refs.nextFrame;
      CancelHandleOf(refs, entity);
      MakeUniform(entity);
      var fromS, fromX, fromY := entity.scaleX, entity.x, entity.y;
      var t := ZoomTarget(refs.profile, refs.screen, refs.baseCardScale,
        ViewMetricsOf(entity.frontWidth, entity.frontHeight, entity.scaleX, entity.scaleY),
        entity.body.x, entity.body.y, zoomIn);
      entity.zoomState := if zoomIn then Zoomed else Normal;
      var a := ZoomStep(entity, fromS, t.scale, fromX, fromY, t.x, t.y, now, ms, zoomIn, false);
      var id := refs.RequestFrame(a);
      refs.hoverAnim := refs.hoverAnim[entity := id];
      StartZoomKeepsTracking(p0, h0, refs.flipping, n0, a);
      assert refs.pending == CancelHandle(p0, h0, entity)[n0 := a] && refs.hoverAnim == h0[entity := n0];
    }

    /** Make a card's scale uniform: when the components differ by more than the
      * tolerance, both become the larger one. */
    method MakeUniform(entity: Entity)
      modifies entity`scaleX, entity`scaleY
      ensures entity.scaleX == UniformScale(old(entity.scaleX), old(entity.scaleY))
      ensures entity.scaleY ==
        if AbsR(old(entity.scaleX) - old(entity.scaleY)) > UniformTolerance then entity.scaleX else old(entity.scaleY)
    {
      if AbsR(entity.scaleX - entity.scaleY) > UniformTolerance {
        var s := MaxR(entity.scaleX, entity.scaleY);
        entity.scaleX, entity.scaleY := s, s;
      }
    }

    /** `flipEntity(entity, ms)`: ignored while the card flips; otherwise the card joins
      * the flipping set, its zoom handle is cancelled and dropped, both scale components
      * are set to the base card scale, its zoom state to normal, and a flip step is
      * queued. */
    method FlipEntity(entity: Entity, ms: real, now: real)
      requires FramesValid(refs) && HandlesSafe(refs) && ms > 0.0
      modifies refs`pending, refs`nextFrame, refs`hoverAnim, refs`flipping
      modifies entity`scaleX, entity`scaleY, entity`zoomState
      ensures FramesValid(refs) && HandlesSafe(refs) && (old(HandlesLive(refs)) ==> HandlesLive(refs))
      ensures old(entity in refs.flipping) ==>
        refs.pending == old(refs.pending) && refs.nextFrame == old(refs.nextFrame) &&
        refs.hoverAnim == old(refs.hoverAnim) && refs.flipping == old(refs.flipping) &&
        entity.scaleX == old(entity.scaleX) && entity.scaleY == old(entity.scaleY) &&
        entity.zoomState == old(entity.zoomState)
      ensures !old(entity in refs.flipping) ==>
        refs.flipping == old(refs.flipping) + {entity} &&
        refs.hoverAnim == (if entity in old(refs.hoverAnim) && old(refs.hoverAnim)[entity] != 0
                           then old(refs.hoverAnim) - {entity} else old(refs.hoverAnim)) &&
        refs.pending == CancelHandle(old(refs.pending), old(refs.hoverAnim), entity)[old(refs.nextFrame) :=
          FlipStep(entity, now, ms, old(refs.baseCardScale), false, false)] &&
        refs.nextFrame == old(refs.nextFrame) + 1 &&
        entity.scaleX == old(refs.baseCardScale) && entity.scaleY == old(refs.baseCardScale) &&
        entity.zoomState == Normal &&
        forall i :: i in refs.pending && refs.pending[i].ZoomStep? ==> refs.pending[i].e != entity
    {
      if entity in refs.flipping {
        return;
      }
      StartFlip(refs, entity, ms, now, refs.baseCardScale, false);
    }

    /** One animation frame: the queued callback `id` runs. The interaction invariant
      * holds across frames as it does across clicks. */
    method Frame(id: nat, now: real)
      requires Valid() && id in refs.pending
      modifies refs, AnimFrame(refs.pending[id])
      ensures Valid()
      ensures id !in refs.pending
    {
      RunFrame(refs, id, now);
    }

    /** `unzoomCurrent()`: with the application and a zoomed card, zoom that card out in
      * 250 ms; otherwise nothing happens. */
    method UnzoomCurrent(now: real)
      requires FramesValid(refs) && HandlesSafe(refs)
      modifies refs`pending, refs`nextFrame, refs`hoverAnim, refs.sprites`eventMode
      modifies CurrentCard(refs)`scaleX, CurrentCard(refs)`scaleY, CurrentCard(refs)`zoomState
      modifies CurrentCard(refs)`zIndex
      ensures FramesValid(refs) && HandlesSafe(refs) && (old(HandlesLive(refs)) ==> HandlesLive(refs))
      ensures refs.hasApp && refs.currentZoomed != null ==>
        refs.currentZoomed.zoomState == Normal && refs.currentZoomed.zIndex == 100.0 &&
        refs.hoverAnim == old(refs.hoverAnim)[refs.currentZoomed := old(refs.nextFrame)] &&
        old(refs.nextFrame) in refs.pending && refs.pending[old(refs.nextFrame)].ZoomStep? &&
        refs.pending[old(refs.nextFrame)].e == refs.currentZoomed && !refs.pending[old(refs.nextFrame)].zoomIn &&
        refs.pending[old(refs.nextFrame)].ms == 250.0 &&
        forall i :: 0 <= i < |refs.sprites| ==> refs.sprites[i].eventMode == Static
      ensures !(refs.hasApp && refs.currentZoomed != null) ==>
        refs.pending == old(refs.pending) && refs.nextFrame == old(refs.nextFrame) && refs.hoverAnim == old(refs.hoverAnim) &&
        (refs.currentZoomed != null ==> refs.currentZoomed.zoomState == old(refs.currentZoomed.zoomState)) &&
        forall i :: 0 <= i < |refs.sprites| ==> refs.sprites[i].eventMode == old(refs.sprites[i].eventMode)
    {
      var zoomed := refs.currentZoomed;
      if !refs.hasApp || zoomed == null {
        return;
      }
      ZoomToCard(zoomed, false, 250.0, now);
    }
  }
}
