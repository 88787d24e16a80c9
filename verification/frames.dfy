/** The animation-frame callbacks the interaction handlers queue (zoom, flip and fade
  * steps), what one frame of each does, and the bookkeeping invariants the handle map
  * and the flipping set keep with respect to the queue. */
module Frames {
  import opened Common
  import opened Easing
  import opened Scene

  datatype ZoomPose = ZoomPose(scale: real, x: real, y: real)

  /** The pose a zoom step writes at time `now`: scale and position eased with
    * easeOutCubic from the captured start to the captured target. */
  function ZoomFrame(a: Anim, now: real): ZoomPose
    requires a.ZoomStep? && a.ms > 0.0
  {
    var k := EaseOutCubic(Progress(now, a.start, a.ms));
    ZoomPose(Lerp(a.fromS, a.toS, k), Lerp(a.fromX, a.toX, k), Lerp(a.fromY, a.toY, k))
  }

  /** The last zoom frame lands exactly on the target, and no frame in between leaves
    * the segment between the start and the target scale. */
  lemma ZoomFrameLands(a: Anim, now: real)
    requires a.ZoomStep? && a.ms > 0.0
    ensures now - a.start >= a.ms ==> ZoomFrame(a, now) == ZoomPose(a.toS, a.toX, a.toY)
    ensures now >= a.start ==>
      MinR(a.fromS, a.toS) <= ZoomFrame(a, now).scale <= MaxR(a.fromS, a.toS)
  {
    var t := Progress(now, a.start, a.ms);
    ProgressBounds(now, a.start, a.ms);
    if now - a.start >= a.ms {
      EaseOutCubicRange(1.0);
      LerpEnds(a.fromS, a.toS, 1.0);
      LerpEnds(a.fromX, a.toX, 1.0);
      LerpEnds(a.fromY, a.toY, 1.0);
    }
    if now >= a.start {
      EaseOutCubicRange(t);
      LerpBetween(a.fromS, a.toS, EaseOutCubic(t));
    }
  }

  /** The horizontal flip factor: 1 down to 0 over the first half, back up to 1 over
    * the second. */
  function FlipUnit(t: real): real
  {
    if t < 0.5 then 1.0 - t / 0.5 else (t - 0.5) / 0.5
  }

  lemma FlipUnitShape(t: real)
    ensures FlipUnit(0.0) == 1.0 && FlipUnit(0.5) == 0.0 && FlipUnit(1.0) == 1.0
    ensures 0.0 <= t <= 1.0 ==> 0.0 <= FlipUnit(t) <= 1.0
  {
  }

  /** `view.scale.x` during a flip frame: never quite zero, times the base scale (the
    * older handler flips around 1). */
  function FlipScaleX(a: Anim, now: real): real
    requires a.FlipStep? && a.ms > 0.0
  {
    MaxR(0.0001, FlipUnit(Progress(now, a.start, a.ms))) * (if a.legacy then 1.0 else a.base)
  }

  /** Whether the frame at `now` turns the card over: the first frame at or past the
    * half-way time. */
  function FlipToggles(swapped: bool, start: real, ms: real, now: real): bool
  {
    !swapped && now - start >= ms * 0.5
  }

  /** The number of `isFaceUp` toggles a run of flip frames at times `times` performs,
    * starting from `swapped`. */
  function FlipRunToggles(swapped: bool, start: real, ms: real, times: seq<real>): nat
    decreases |times|
  {
    if |times| == 0 then 0
    else
      var tog := FlipToggles(swapped, start, ms, times[0]);
      (if tog then 1 else 0) + FlipRunToggles(swapped || tog, start, ms, times[1..])
  }

  /** A flip whose frames run until the first one at or past the full duration turns
    * the card over exactly once: at most once because of the `swapped` guard, and at
    * least once because the last frame is past the half-way time. */
  lemma {:induction false} FlipTogglesOnce(swapped: bool, start: real, ms: real, times: seq<real>)
    requires ms > 0.0 && |times| > 0
    requires times[|times| - 1] - start >= ms
    ensures FlipRunToggles(swapped, start, ms, times) == (if swapped then 0 else 1)
    decreases |times|
  {
    if |times| == 1 {
    } else {
      var tog := FlipToggles(swapped, start, ms, times[0]);
      FlipTogglesOnce(swapped || tog, start, ms, times[1..]);
    }
  }

  /** The scale a flip frame writes is never zero, and the last frame writes exactly the
    * scale the flip restores (the base scale, or 1 for the older handler). */
  lemma FlipScaleXShape(a: Anim, now: real)
    requires a.FlipStep? && a.ms > 0.0
    ensures var unitBase := if a.legacy then 1.0 else a.base;
      unitBase > 0.0 ==> FlipScaleX(a, now) >= 0.0001 * unitBase
    ensures now - a.start >= a.ms ==> FlipScaleX(a, now) == (if a.legacy then 1.0 else a.base)
  {
    ProgressBounds(now, a.start, a.ms);
    var unitBase := if a.legacy then 1.0 else a.base;
    var u := MaxR(0.0001, FlipUnit(Progress(now, a.start, a.ms)));
    MaxRBounds(0.0001, FlipUnit(Progress(now, a.start, a.ms)));
    assert FlipScaleX(a, now) == u * unitBase;
    if unitBase > 0.0 {
      MulLe(0.0001, u, unitBase);
    }
  }

  /** The alpha a fade frame writes. */
  function FadeValue(from: real, to: real, start: real, ms: real, now: real): real
    requires ms > 0.0
  {
    Lerp(from, to, EaseOutCubic(Progress(now, start, ms)))
  }

  /** A fade stays between its end points and its last frame writes the target alpha. */
  lemma FadeValueShape(from: real, to: real, start: real, ms: real, now: real)
    requires ms > 0.0
    ensures now >= start ==> MinR(from, to) <= FadeValue(from, to, start, ms, now) <= MaxR(from, to)
    ensures now - start >= ms ==> FadeValue(from, to, start, ms, now) == to
  {
    var t := Progress(now, start, ms);
    ProgressBounds(now, start, ms);
    if now >= start {
      EaseOutCubicRange(t);
      LerpBetween(from, to, EaseOutCubic(t));
    }
    if now - start >= ms {
      EaseOutCubicRange(1.0);
      LerpEnds(from, to, 1.0);
    }
  }

  /** Every queued zoom step is the one the handle map holds for its entity, so no entity
    * has two zoom animations running. */
  ghost predicate ZoomsTrackedIn(pending: map<nat, Anim>, hoverAnim: map<Entity, nat>)
  {
    forall id :: id in pending && pending[id].ZoomStep? ==>
      pending[id].e in hoverAnim && hoverAnim[pending[id].e] == id
  }

  /** Every handle in the map names a queued zoom step of its own entity, so cancelling
    * the handle stops that entity's zoom. */
  ghost predicate HandlesLiveIn(pending: map<nat, Anim>, hoverAnim: map<Entity, nat>)
  {
    forall e :: e in hoverAnim ==>
      hoverAnim[e] in pending && pending[hoverAnim[e]].ZoomStep? && pending[hoverAnim[e]].e == e
  }

  /** The flipping set is exactly the set of entities with a queued flip step, and no
    * entity has two. */
  ghost predicate FlipsTrackedIn(pending: map<nat, Anim>, flipping: set<Entity>)
  {
    (forall id :: id in pending && pending[id].FlipStep? ==> pending[id].e in flipping) &&
    (forall e :: e in flipping ==>
      exists id :: id in pending && pending[id].FlipStep? && pending[id].e == e) &&
    (forall id1, id2 ::
      (id1 in pending && id2 in pending && pending[id1].FlipStep? && pending[id2].FlipStep? &&
       pending[id1].e == pending[id2].e) ==> id1 == id2)
  }

  ghost predicate ZoomsTracked(refs: CanvasRefs)
    reads refs
  {
    ZoomsTrackedIn(refs.pending, refs.hoverAnim)
  }

  ghost predicate HandlesLive(refs: CanvasRefs)
    reads refs
  {
    HandlesLiveIn(refs.pending, refs.hoverAnim)
  }

  ghost predicate FlipsTracked(refs: CanvasRefs)
    reads refs
  {
    FlipsTrackedIn(refs.pending, refs.flipping)
  }

  /** Every handle in the map was issued already and, while its frame is still queued,
    * names a zoom step of its own entity, so cancelling a handle never stops another
    * entity's animation; a handle whose frame has run out may stay behind. */
  ghost predicate HandlesSafeIn(pending: map<nat, Anim>, hoverAnim: map<Entity, nat>, next: nat)
  {
    forall e :: e in hoverAnim ==>
      hoverAnim[e] < next &&
      (hoverAnim[e] in pending ==> pending[hoverAnim[e]].ZoomStep? && pending[hoverAnim[e]].e == e)
  }

  ghost predicate HandlesSafe(refs: CanvasRefs)
    reads refs
  {
    HandlesSafeIn(refs.pending, refs.hoverAnim, refs.nextFrame)
  }

  /** Dropping queued steps and handles, and queueing a step that is not a zoom under the
    * next handle, keeps the handles safe. */
  lemma DropKeepsSafe(pending: map<nat, Anim>, hoverAnim: map<Entity, nat>, next: nat, id: nat, drop: set<Entity>, b: Anim)
    requires !b.ZoomStep?
    ensures HandlesSafeIn(pending, hoverAnim, next) ==> HandlesSafeIn(pending - {id}, hoverAnim - drop, next)
    ensures HandlesSafeIn(pending, hoverAnim, next) ==> HandlesSafeIn((pending - {id})[next := b], hoverAnim, next + 1)
  {
  }

  /** Re-queueing a zoom step under the next handle and re-pointing its entity's handle
    * at it keeps the handles safe. */
  lemma RezoomKeepsSafe(pending: map<nat, Anim>, hoverAnim: map<Entity, nat>, next: nat, id: nat)
    requires id in pending && pending[id].ZoomStep?
    ensures HandlesSafeIn(pending, hoverAnim, next) ==>
      HandlesSafeIn((pending - {id})[next := pending[id]], hoverAnim[pending[id].e := next], next + 1)
  {
    if !HandlesSafeIn(pending, hoverAnim, next) { return; }
    var a := pending[id];
    var p2 := (pending - {id})[next := a];
    var h2 := hoverAnim[a.e := next];
    forall e | e in h2
      ensures h2[e] < next + 1 && (h2[e] in p2 ==> p2[h2[e]].ZoomStep? && p2[h2[e]].e == e)
    {
      if e != a.e {
        assert h2[e] == hoverAnim[e] < next;
      }
    }
  }

  /** `if (prev) cancelAnimationFrame(prev)`: the queue once the handle recorded for `e`
    * is cancelled, when there is one and it is not 0. */
  function CancelHandle(pending: map<nat, Anim>, hoverAnim: map<Entity, nat>, e: Entity): map<nat, Anim>
  {
    if e in hoverAnim && hoverAnim[e] != 0 then pending - {hoverAnim[e]} else pending
  }

  /** `cancelAnimationFrame` on the handle the map holds for `e`, if any; the map entry
    * stays. */
  method CancelHandleOf(refs: CanvasRefs, e: Entity)
    requires refs.QueueValid()
    modifies refs`pending
    ensures refs.QueueValid()
    ensures refs.pending == CancelHandle(old(refs.pending), refs.hoverAnim, e)
  {
    if e in refs.hoverAnim && refs.hoverAnim[e] != 0 {
      refs.CancelFrame(refs.hoverAnim[e]);
    }
  }

  /** With the bookkeeping in place, cancelling the handle of `e` removes exactly the
    * queued zoom steps of `e` (at most one) and keeps the bookkeeping; a live handle map
    * stays live once the handle of `e` is dropped. */
  lemma CancelHandleKeepsTracking(pending: map<nat, Anim>, hoverAnim: map<Entity, nat>, flipping: set<Entity>,
                                  next: nat, e: Entity)
    requires ZoomsTrackedIn(pending, hoverAnim) && FlipsTrackedIn(pending, flipping)
    requires HandlesSafeIn(pending, hoverAnim, next) && forall i :: i in pending ==> i > 0
    ensures var p2 := CancelHandle(pending, hoverAnim, e);
      ZoomsTrackedIn(p2, hoverAnim) && FlipsTrackedIn(p2, flipping) && HandlesSafeIn(p2, hoverAnim, next) &&
      (forall i :: i in pending ==> (i in p2 <==> !(pending[i].ZoomStep? && pending[i].e == e))) &&
      (forall i :: i in p2 ==> i in pending && p2[i] == pending[i]) &&
      (HandlesLiveIn(pending, hoverAnim) ==> HandlesLiveIn(p2, hoverAnim - {e}))
  {
    if e in hoverAnim && hoverAnim[e] != 0 {
      var h := hoverAnim[e];
      if h in pending {
        FlipsKept(pending, pending - {h}, flipping, h);
      } else {
        assert pending - {h} == pending;
      }
    }
  }

  /** Queueing a zoom step of an entity with no queued zoom step under the next handle,
    * and recording that handle for it, keeps the bookkeeping and makes the handle live. */
  lemma AddZoomKeepsTracking(pending: map<nat, Anim>, hoverAnim: map<Entity, nat>, flipping: set<Entity>,
                             next: nat, a: Anim)
    requires ZoomsTrackedIn(pending, hoverAnim) && FlipsTrackedIn(pending, flipping)
    requires HandlesSafeIn(pending, hoverAnim, next) && forall i :: i in pending ==> i < next
    requires a.ZoomStep? && forall i :: i in pending ==> !(pending[i].ZoomStep? && pending[i].e == a.e)
    ensures ZoomsTrackedIn(pending[next := a], hoverAnim[a.e := next])
    ensures FlipsTrackedIn(pending[next := a], flipping)
    ensures HandlesSafeIn(pending[next := a], hoverAnim[a.e := next], next + 1)
    ensures HandlesLiveIn(pending, hoverAnim - {a.e}) ==> HandlesLiveIn(pending[next := a], hoverAnim[a.e := next])
  {
    FlipsKeptByOtherSteps(pending, pending[next := a], flipping);
    var p2, h2 := pending[next := a], hoverAnim[a.e := next];
    if HandlesLiveIn(pending, hoverAnim - {a.e}) {
      forall e | e in h2
        ensures h2[e] in p2 && p2[h2[e]].ZoomStep? && p2[h2[e]].e == e
      {
        if e != a.e {
          assert e in hoverAnim - {a.e};
        }
      }
    }
  }

  /** Queueing a flip step of an entity outside the flipping set under the next handle,
    * and adding the entity to the set, keeps the bookkeeping. */
  lemma AddFlipKeepsTracking(pending: map<nat, Anim>, hoverAnim: map<Entity, nat>, flipping: set<Entity>,
                             next: nat, b: Anim)
    requires ZoomsTrackedIn(pending, hoverAnim) && FlipsTrackedIn(pending, flipping)
    requires HandlesSafeIn(pending, hoverAnim, next) && forall i :: i in pending ==> i < next
    requires b.FlipStep? && b.e !in flipping
    ensures ZoomsTrackedIn(pending[next := b], hoverAnim)
    ensures FlipsTrackedIn(pending[next := b], flipping + {b.e})
    ensures HandlesSafeIn(pending[next := b], hoverAnim, next + 1)
    ensures HandlesLiveIn(pending, hoverAnim) ==> HandlesLiveIn(pending[next := b], hoverAnim)
  {
    var p2 := pending[next := b];
    forall e | e in flipping + {b.e}
      ensures exists i :: i in p2 && p2[i].FlipStep? && p2[i].e == e
    {
      if e == b.e {
        assert p2[next] == b;
      } else {
        var i :| i in pending && pending[i].FlipStep? && pending[i].e == e;
        assert p2[i] == pending[i];
      }
    }
  }

  /** With the zoom steps tracked, two queued zoom steps of one entity are the same. */
  lemma OneZoomPerEntity(pending: map<nat, Anim>, hoverAnim: map<Entity, nat>, id1: nat, id2: nat)
    requires ZoomsTrackedIn(pending, hoverAnim)
    requires id1 in pending && id2 in pending
    requires pending[id1].ZoomStep? && pending[id2].ZoomStep?
    requires pending[id1].e == pending[id2].e
    ensures id1 == id2
  {
  }

  /** Dropping a zoom step and queueing other steps under fresh handles keeps the flip
    * bookkeeping. */
  lemma FlipsKept(before: map<nat, Anim>, after: map<nat, Anim>, flipping: set<Entity>, id: nat)
    requires FlipsTrackedIn(before, flipping)
    requires id in before && before[id].ZoomStep?
    requires forall i :: i in before && i != id ==> i in after && after[i] == before[i]
    requires forall i :: i in after ==> (i in before && i != id && after[i] == before[i]) || after[i].ZoomStep?
    ensures FlipsTrackedIn(after, flipping)
  {
    forall e | e in flipping
      ensures exists i :: i in after && after[i].FlipStep? && after[i].e == e
    {
      var i :| i in before && before[i].FlipStep? && before[i].e == e;
      assert i in after && after[i] == before[i];
    }
  }

  /** A zoom frame that re-queues its step under a fresh handle and re-points the entity's
    * handle at it keeps both directions of the zoom bookkeeping. */
  lemma RequeueKeepsZooms(pending: map<nat, Anim>, hoverAnim: map<Entity, nat>, id: nat, next: nat)
    requires ZoomsTrackedIn(pending, hoverAnim)
    requires id in pending && pending[id].ZoomStep? && next !in pending
    ensures ZoomsTrackedIn((pending - {id})[next := pending[id]], hoverAnim[pending[id].e := next])
    ensures HandlesLiveIn(pending, hoverAnim) ==>
      HandlesLiveIn((pending - {id})[next := pending[id]], hoverAnim[pending[id].e := next])
  {
    var a := pending[id];
    var p2 := (pending - {id})[next := a];
    var h2 := hoverAnim[a.e := next];
    forall i | i in p2 && p2[i].ZoomStep? ensures p2[i].e in h2 && h2[p2[i].e] == i {
      if i != next {
        assert p2[i] == pending[i];
        if p2[i].e == a.e { assert false; }
      }
    }
  }

  /** A zoom frame that finishes its step and drops the entity's handle keeps both
    * directions of the zoom bookkeeping; keeping the handle keeps only the first. */
  lemma FinishKeepsZooms(pending: map<nat, Anim>, hoverAnim: map<Entity, nat>, id: nat, dropHandle: bool)
    requires ZoomsTrackedIn(pending, hoverAnim)
    requires id in pending && pending[id].ZoomStep?
    ensures ZoomsTrackedIn(pending - {id}, if dropHandle then hoverAnim - {pending[id].e} else hoverAnim)
    ensures dropHandle && HandlesLiveIn(pending, hoverAnim) ==>
      HandlesLiveIn(pending - {id}, hoverAnim - {pending[id].e})
  {
    var a := pending[id];
    var p2 := pending - {id};
    var h2 := if dropHandle then hoverAnim - {a.e} else hoverAnim;
    forall i | i in p2 && p2[i].ZoomStep? ensures p2[i].e in h2 && h2[p2[i].e] == i {
    }
  }

  /** The zoom bookkeeping reads only the zoom steps of the queue. */
  lemma ZoomsKeptByOtherSteps(p1: map<nat, Anim>, p2: map<nat, Anim>, hoverAnim: map<Entity, nat>)
    requires forall i :: i in p2 && p2[i].ZoomStep? ==> i in p1 && p1[i] == p2[i]
    requires forall i :: i in p1 && p1[i].ZoomStep? ==> i in p2 && p2[i] == p1[i]
    ensures ZoomsTrackedIn(p1, hoverAnim) ==> ZoomsTrackedIn(p2, hoverAnim)
    ensures HandlesLiveIn(p1, hoverAnim) ==> HandlesLiveIn(p2, hoverAnim)
  {
  }

  /** A flip frame that re-queues its step (with the updated `swapped` flag) under a fresh
    * handle keeps the flip bookkeeping. */
  lemma RequeueKeepsFlips(pending: map<nat, Anim>, flipping: set<Entity>, id: nat, next: nat, b: Anim)
    requires FlipsTrackedIn(pending, flipping)
    requires id in pending && pending[id].FlipStep? && next !in pending
    requires b.FlipStep? && b.e == pending[id].e
    ensures FlipsTrackedIn((pending - {id})[next := b], flipping)
  {
    var p2 := (pending - {id})[next := b];
    forall e | e in flipping
      ensures exists i :: i in p2 && p2[i].FlipStep? && p2[i].e == e
    {
      var i :| i in pending && pending[i].FlipStep? && pending[i].e == e;
      if i == id {
        assert p2[next] == b;
      } else {
        assert p2[i] == pending[i];
      }
    }
    forall id1, id2 | id1 in p2 && id2 in p2 && p2[id1].FlipStep? && p2[id2].FlipStep? && p2[id1].e == p2[id2].e
      ensures id1 == id2
    {
      if id1 != next && id2 != next {
        assert p2[id1] == pending[id1] && p2[id2] == pending[id2];
      }
    }
  }

  /** The last flip frame drops the step and its entity together, keeping the flip
    * bookkeeping. */
  lemma FinishKeepsFlips(pending: map<nat, Anim>, flipping: set<Entity>, id: nat)
    requires FlipsTrackedIn(pending, flipping)
    requires id in pending && pending[id].FlipStep?
    ensures FlipsTrackedIn(pending - {id}, flipping - {pending[id].e})
  {
    var p2 := pending - {id};
    var e0 := pending[id].e;
    forall e | e in flipping - {e0}
      ensures exists i :: i in p2 && p2[i].FlipStep? && p2[i].e == e
    {
      var i :| i in pending && pending[i].FlipStep? && pending[i].e == e;
      assert i != id;
      assert p2[i] == pending[i];
    }
  }

  /** The flip bookkeeping reads only the flip steps of the queue. */
  lemma FlipsKeptByOtherSteps(p1: map<nat, Anim>, p2: map<nat, Anim>, flipping: set<Entity>)
    requires FlipsTrackedIn(p1, flipping)
    requires forall i :: i in p2 && p2[i].FlipStep? ==> i in p1 && p1[i] == p2[i]
    requires forall i :: i in p1 && p1[i].FlipStep? ==> i in p2 && p2[i] == p1[i]
    ensures FlipsTrackedIn(p2, flipping)
  {
    forall e | e in flipping
      ensures exists i :: i in p2 && p2[i].FlipStep? && p2[i].e == e
    {
      var i :| i in p1 && p1[i].FlipStep? && p1[i].e == e;
      assert i in p2 && p2[i] == p1[i];
    }
  }

  /** Queueing a fade under a fresh handle keeps all the bookkeeping. */
  lemma FadeQueuedKeepsTracking(pending: map<nat, Anim>, hoverAnim: map<Entity, nat>, flipping: set<Entity>, id: nat, a: Anim)
    requires ZoomsTrackedIn(pending, hoverAnim) && FlipsTrackedIn(pending, flipping)
    requires id !in pending && (a.FadeStep? || a.LayerFadeStep?)
    ensures ZoomsTrackedIn(pending[id := a], hoverAnim) && FlipsTrackedIn(pending[id := a], flipping)
    ensures HandlesLiveIn(pending, hoverAnim) ==> HandlesLiveIn(pending[id := a], hoverAnim)
  {
    ZoomsKeptByOtherSteps(pending, pending[id := a], hoverAnim);
    FlipsKeptByOtherSteps(pending, pending[id := a], flipping);
  }

  /** One frame of a flip: scale x along 1 → 0 → 1, turn the card over on the first frame
    * past half-way, and on the last frame restore the scale and leave the flipping set. */
  method RunFlipStep(refs: CanvasRefs, id: nat, now: real)
    requires refs.QueueValid() && id in refs.pending && refs.pending[id].FlipStep?
    requires ZoomsTracked(refs) && FlipsTracked(refs)
    modifies refs, refs.pending[id].e
    ensures refs.QueueValid() && ZoomsTracked(refs) && FlipsTracked(refs)
    ensures old(HandlesLive(refs)) ==> HandlesLive(refs)
    ensures old(HandlesSafe(refs)) ==> HandlesSafe(refs)
    ensures var a := old(refs.pending[id]); var tog := FlipToggles(a.swapped, a.start, a.ms, now);
      a.e.State() == old(a.e.State()).(isFaceUp := if tog then !old(a.e.isFaceUp) else old(a.e.isFaceUp),
        scaleX := FlipScaleX(a, now), scaleY := if a.legacy then old(a.e.scaleY) else a.base)
    ensures var a := old(refs.pending[id]); var tog := FlipToggles(a.swapped, a.start, a.ms, now);
      if Progress(now, a.start, a.ms) < 1.0 then
        refs.State() == old(refs.State()).(pending := (old(refs.pending) - {id})[old(refs.nextFrame) := a.(swapped := a.swapped || tog)],
          nextFrame := old(refs.nextFrame) + 1)
      else
        refs.State() == old(refs.State()).(pending := old(refs.pending) - {id}, flipping := old(refs.flipping) - {a.e})
  {
    var a := refs.pending[id];
    var tog := FlipToggles(a.swapped, a.start, a.ms, now);
    ApplyFlipPose(a, now, tog);
    RequeueOrFinishFlip(refs, id, now, tog);
  }

  /** The tail of a flip frame: queue the step again with the updated `swapped` flag, or
    * take the entity out of the flipping set once the flip is complete. */
  method RequeueOrFinishFlip(refs: CanvasRefs, id: nat, now: real, tog: bool)
    requires refs.QueueValid() && id in refs.pending && refs.pending[id].FlipStep?
    requires ZoomsTracked(refs) && FlipsTracked(refs)
    modifies refs
    ensures refs.QueueValid() && ZoomsTracked(refs) && FlipsTracked(refs)
    ensures old(HandlesLive(refs)) ==> HandlesLive(refs)
    ensures old(HandlesSafe(refs)) ==> HandlesSafe(refs)
    ensures var a := old(refs.pending[id]);
      if Progress(now, a.start, a.ms) < 1.0 then
        refs.State() == old(refs.State()).(pending := (old(refs.pending) - {id})[old(refs.nextFrame) := a.(swapped := a.swapped || tog)],
          nextFrame := old(refs.nextFrame) + 1)
      else
        refs.State() == old(refs.State()).(pending := old(refs.pending) - {id}, flipping := old(refs.flipping) - {a.e})
  {
    var a := refs.pending[id];
    ghost var p0 := refs.pending;
    DropKeepsSafe(p0, refs.hoverAnim, refs.nextFrame, id, {}, a.(swapped := a.swapped || tog));
    NonZoomStepMoved(p0, id, refs.nextFrame, a.(swapped := a.swapped || tog), refs.hoverAnim);
    refs.pending := refs.pending - {id};
    if Progress(now, a.start, a.ms) < 1.0 {
      var next := refs.RequestFrame(a.(swapped := a.swapped || tog));
      RequeueKeepsFlips(p0, refs.flipping, id, next, a.(swapped := a.swapped || tog));
    } else {
      FinishKeepsFlips(p0, refs.flipping, id);
      refs.flipping := refs.flipping - {a.e};
    }
  }

  /** Dropping a step that is not a zoom, or replacing it by another such step under a
    * fresh handle, keeps the zoom handles. */
  lemma NonZoomStepMoved(p0: map<nat, Anim>, id: nat, next: nat, b: Anim, hoverAnim: map<Entity, nat>)
    requires id in p0 && !p0[id].ZoomStep? && !b.ZoomStep? && next !in p0
    ensures ZoomsTrackedIn(p0, hoverAnim) ==>
      ZoomsTrackedIn(p0 - {id}, hoverAnim) && ZoomsTrackedIn((p0 - {id})[next := b], hoverAnim)
    ensures HandlesLiveIn(p0, hoverAnim) ==>
      HandlesLiveIn(p0 - {id}, hoverAnim) && HandlesLiveIn((p0 - {id})[next := b], hoverAnim)
  {
    ZoomsKeptByOtherSteps(p0, p0 - {id}, hoverAnim);
    ZoomsKeptByOtherSteps(p0, (p0 - {id})[next := b], hoverAnim);
  }

  /** The view writes of a flip frame; the last frame's restore writes the value the
    * frame itself computed. */
  method ApplyFlipPose(a: Anim, now: real, tog: bool)
    requires a.FlipStep? && a.ms > 0.0
    modifies a.e
    ensures a.e.State() == old(a.e.State()).(isFaceUp := if tog then !old(a.e.isFaceUp) else old(a.e.isFaceUp),
      scaleX := FlipScaleX(a, now), scaleY := if a.legacy then old(a.e.scaleY) else a.base)
  {
    var e := a.e;
    var t := Progress(now, a.start, a.ms);
    if a.legacy {
      e.scaleX := MaxR(0.0001, FlipUnit(t));
    } else {
      e.scaleX := MaxR(0.0001, FlipUnit(t)) * a.base;
      e.scaleY := a.base;
    }
    if tog {
      e.isFaceUp := !e.isFaceUp;
    }
    if t >= 1.0 {
      FlipScaleXShape(a, now);
      ProgressBounds(now, a.start, a.ms);
      if a.legacy {
        e.scaleX := 1.0;
      } else {
        e.scaleX, e.scaleY := a.base, a.base;
      }
    }
  }

  /** One frame of a card fade (hide or show). */
  method RunFadeStep(refs: CanvasRefs, id: nat, now: real)
    requires refs.QueueValid() && id in refs.pending && refs.pending[id].FadeStep?
    requires ZoomsTracked(refs) && FlipsTracked(refs)
    modifies refs, refs.pending[id].e
    ensures refs.QueueValid() && ZoomsTracked(refs) && FlipsTracked(refs)
    ensures old(HandlesLive(refs)) ==> HandlesLive(refs)
    ensures old(HandlesSafe(refs)) ==> HandlesSafe(refs)
    ensures var a := old(refs.pending[id]);
      a.e.State() == old(a.e.State()).(alpha := FadeValue(a.from, a.to, a.start, a.ms, now))
    ensures var a := old(refs.pending[id]);
      if Progress(now, a.start, a.ms) < 1.0 then
        refs.State() == old(refs.State()).(pending := (old(refs.pending) - {id})[old(refs.nextFrame) := a],
          nextFrame := old(refs.nextFrame) + 1)
      else
        refs.State() == old(refs.State()).(pending := old(refs.pending) - {id})
  {
    var a := refs.pending[id];
    a.e.alpha := FadeValue(a.from, a.to, a.start, a.ms, now);
    RequeueOrDrop(refs, id, now);
  }

  /** One frame of a label-layer fade. */
  method RunLayerFadeStep(refs: CanvasRefs, id: nat, now: real)
    requires refs.QueueValid() && id in refs.pending && refs.pending[id].LayerFadeStep?
    requires ZoomsTracked(refs) && FlipsTracked(refs)
    modifies refs
    ensures refs.QueueValid() && ZoomsTracked(refs) && FlipsTracked(refs)
    ensures old(HandlesLive(refs)) ==> HandlesLive(refs)
    ensures old(HandlesSafe(refs)) ==> HandlesSafe(refs)
    ensures var a := old(refs.pending[id]);
      var alpha := if old(refs.labelLayerAlpha).Some? then Some(FadeValue(a.from, a.to, a.start, a.ms, now)) else None;
      if Progress(now, a.start, a.ms) < 1.0 then
        refs.State() == old(refs.State()).(pending := (old(refs.pending) - {id})[old(refs.nextFrame) := a],
          nextFrame := old(refs.nextFrame) + 1, labelLayerAlpha := alpha)
      else
        refs.State() == old(refs.State()).(pending := old(refs.pending) - {id}, labelLayerAlpha := alpha)
  {
    var a := refs.pending[id];
    if refs.labelLayerAlpha.Some? {
      refs.labelLayerAlpha := Some(FadeValue(a.from, a.to, a.start, a.ms, now));
    }
    RequeueOrDrop(refs, id, now);
  }

  /** The tail of a fade frame: queue the same step again until the fade is complete. */
  method RequeueOrDrop(refs: CanvasRefs, id: nat, now: real)
    requires refs.QueueValid() && id in refs.pending
    requires refs.pending[id].FadeStep? || refs.pending[id].LayerFadeStep?
    requires ZoomsTracked(refs) && FlipsTracked(refs)
    modifies refs
    ensures refs.QueueValid() && ZoomsTracked(refs) && FlipsTracked(refs)
    ensures old(HandlesLive(refs)) ==> HandlesLive(refs)
    ensures old(HandlesSafe(refs)) ==> HandlesSafe(refs)
    ensures var a := old(refs.pending[id]);
      if Progress(now, a.start, a.ms) < 1.0 then
        refs.State() == old(refs.State()).(pending := (old(refs.pending) - {id})[old(refs.nextFrame) := a],
          nextFrame := old(refs.nextFrame) + 1)
      else
        refs.State() == old(refs.State()).(pending := old(refs.pending) - {id})
  {
    var a := refs.pending[id];
    ghost var p0 := refs.pending;
    DropKeepsSafe(p0, refs.hoverAnim, refs.nextFrame, id, {}, a);
    OtherStepMoved(p0, id, refs.nextFrame, refs.hoverAnim, refs.flipping);
    refs.pending := refs.pending - {id};
    if Progress(now, a.start, a.ms) < 1.0 {
      var next := refs.RequestFrame(a);
    }
  }

  /** Dropping a step that is neither a zoom nor a flip, or moving it to a fresh handle,
    * keeps the zoom and flip bookkeeping. */
  lemma OtherStepMoved(p0: map<nat, Anim>, id: nat, next: nat, hoverAnim: map<Entity, nat>, flipping: set<Entity>)
    requires id in p0 && !p0[id].ZoomStep? && !p0[id].FlipStep? && next !in p0
    ensures ZoomsTrackedIn(p0, hoverAnim) ==>
      ZoomsTrackedIn(p0 - {id}, hoverAnim) && ZoomsTrackedIn((p0 - {id})[next := p0[id]], hoverAnim)
    ensures HandlesLiveIn(p0, hoverAnim) ==>
      HandlesLiveIn(p0 - {id}, hoverAnim) && HandlesLiveIn((p0 - {id})[next := p0[id]], hoverAnim)
    ensures FlipsTrackedIn(p0, flipping) ==>
      FlipsTrackedIn(p0 - {id}, flipping) && FlipsTrackedIn((p0 - {id})[next := p0[id]], flipping)
  {
    var p1 := p0 - {id};
    var p2 := p1[next := p0[id]];
    NonZoomStepMoved(p0, id, next, p0[id], hoverAnim);
    if FlipsTrackedIn(p0, flipping) {
      FlipsKeptByOtherSteps(p0, p1, flipping);
      FlipsKeptByOtherSteps(p0, p2, flipping);
    }
  }

  /** The bookkeeping every frame keeps: the queue is well formed, every zoom step is the
    * one its entity's handle names, and the flipping set matches the flip steps. */
  ghost predicate FramesValid(refs: CanvasRefs)
    reads refs
  {
    refs.QueueValid() && ZoomsTracked(refs) && FlipsTracked(refs)
  }

  /** Run the queued callback with handle `id` at frame time `now`. */
  method RunFrame(refs: CanvasRefs, id: nat, now: real)
    requires FramesValid(refs) && id in refs.pending
    modifies refs, AnimFrame(refs.pending[id])
    ensures FramesValid(refs)
    ensures var a := old(refs.pending[id]);
      old(HandlesLive(refs)) && !(a.ZoomStep? && a.legacy && a.zoomIn) ==> HandlesLive(refs)
    ensures old(HandlesSafe(refs)) ==> HandlesSafe(refs)
    ensures id !in refs.pending && refs.nextFrame >= old(refs.nextFrame)
    ensures refs.sprites == old(refs.sprites) && refs.currentZoomed == old(refs.currentZoomed)
    ensures var a := old(refs.pending[id]); a.LayerFadeStep? || a.e.zoomState == old(a.e.zoomState)
  {
    var a := refs.pending[id];
    match a
    case ZoomStep(_, _, _, _, _, _, _, _, _, _, _) =>
      RunZoomStep(refs, id, now);
    case FlipStep(_, _, _, _, _, _) =>
      RunFlipStep(refs, id, now);
    case FadeStep(_, _, _, _, _) =>
      RunFadeStep(refs, id, now);
    case LayerFadeStep(_, _, _, _) =>
      RunLayerFadeStep(refs, id, now);
  }

  /** One frame of a zoom step, with the handle map re-pointed at the re-requested frame
    * so that a later cancel still reaches it; the finished step drops the handle
    * (the older handler keeps the handle of a finished zoom-in). */
  method RunZoomStep(refs: CanvasRefs, id: nat, now: real)
    requires refs.QueueValid() && id in refs.pending && refs.pending[id].ZoomStep?
    requires ZoomsTracked(refs) && FlipsTracked(refs)
    modifies refs, refs.pending[id].e
    ensures refs.QueueValid() && ZoomsTracked(refs) && FlipsTracked(refs)
    ensures old(HandlesLive(refs)) && !(old(refs.pending[id]).legacy && old(refs.pending[id]).zoomIn) ==> HandlesLive(refs)
    ensures old(HandlesSafe(refs)) ==> HandlesSafe(refs)
    ensures var a := old(refs.pending[id]); var p := ZoomFrame(a, now);
      a.e.State() == old(a.e.State()).(scaleX := p.scale, scaleY := p.scale, x := p.x, y := p.y)
    ensures var a := old(refs.pending[id]);
      if Progress(now, a.start, a.ms) < 1.0 then
        refs.State() == old(refs.State()).(pending := (old(refs.pending) - {id})[old(refs.nextFrame) := a],
          nextFrame := old(refs.nextFrame) + 1, hoverAnim := old(refs.hoverAnim)[a.e := old(refs.nextFrame)])
      else
        refs.State() == old(refs.State()).(pending := old(refs.pending) - {id},
          hoverAnim := if a.legacy && a.zoomIn then old(refs.hoverAnim) else old(refs.hoverAnim) - {a.e})
  {
    var a := refs.pending[id];
    var t := Progress(now, a.start, a.ms);
    ApplyZoomPose(a.e, ZoomFrame(a, now));
    if t < 1.0 {
      RequeueZoom(refs, id);
    } else {
      FinishZoom(refs, id);
    }
  }

  /** The pose writes of a zoom frame. */
  method ApplyZoomPose(e: Entity, p: ZoomPose)
    modifies e
    ensures e.State() == old(e.State()).(scaleX := p.scale, scaleY := p.scale, x := p.x, y := p.y)
  {
    e.scaleX, e.scaleY := p.scale, p.scale;
    e.x, e.y := p.x, p.y;
  }

  /** An unfinished zoom frame: the step is queued again and its handle recorded. */
  method RequeueZoom(refs: CanvasRefs, id: nat)
    requires refs.QueueValid() && id in refs.pending && refs.pending[id].ZoomStep?
    requires ZoomsTracked(refs) && FlipsTracked(refs)
    modifies refs
    ensures refs.QueueValid() && ZoomsTracked(refs) && FlipsTracked(refs)
    ensures old(HandlesLive(refs)) ==> HandlesLive(refs)
    ensures old(HandlesSafe(refs)) ==> HandlesSafe(refs)
    ensures var a := old(refs.pending[id]);
      refs.State() == old(refs.State()).(pending := (old(refs.pending) - {id})[old(refs.nextFrame) := a],
        nextFrame := old(refs.nextFrame) + 1, hoverAnim := old(refs.hoverAnim)[a.e := old(refs.nextFrame)])
  {
    var a := refs.pending[id];
    ghost var p0, h0 := refs.pending, refs.hoverAnim;
    RezoomKeepsSafe(p0, h0, refs.nextFrame, id);
    refs.pending := refs.pending - {id};
    var next := refs.RequestFrame(a);
    refs.hoverAnim := refs.hoverAnim[a.e := next];
    RequeueKeepsZooms(p0, h0, id, next);
    FlipsKept(p0, refs.pending, refs.flipping, id);
  }

  /** The last zoom frame: the step leaves the queue and, except after the older
    * handler's zoom-in, its handle leaves the map. */
  method FinishZoom(refs: CanvasRefs, id: nat)
    requires refs.QueueValid() && id in refs.pending && refs.pending[id].ZoomStep?
    requires ZoomsTracked(refs) && FlipsTracked(refs)
    modifies refs
    ensures refs.QueueValid() && ZoomsTracked(refs) && FlipsTracked(refs)
    ensures old(HandlesLive(refs)) && !(old(refs.pending[id]).legacy && old(refs.pending[id]).zoomIn) ==> HandlesLive(refs)
    ensures old(HandlesSafe(refs)) ==> HandlesSafe(refs)
    ensures var a := old(refs.pending[id]);
      refs.State() == old(refs.State()).(pending := old(refs.pending) - {id},
        hoverAnim := if a.legacy && a.zoomIn then old(refs.hoverAnim) else old(refs.hoverAnim) - {a.e})
  {
    var a := refs.pending[id];
    ghost var p0, h0 := refs.pending, refs.hoverAnim;
    DropKeepsSafe(p0, h0, refs.nextFrame, id, if a.legacy && a.zoomIn then {} else {a.e}, LayerFadeStep(0.0, 0.0, 0.0, 1.0));
    refs.pending := refs.pending - {id};
    if !(a.legacy && a.zoomIn) {
      refs.hoverAnim := refs.hoverAnim - {a.e};
    }
    FinishKeepsZooms(p0, h0, id, !(a.legacy && a.zoomIn));
    FlipsKept(p0, refs.pending, refs.flipping, id);
  }

  /** One frame of a zoom step as the source writes it: the re-requested frame's handle
    * stays in a local variable and the map keeps the first handle. */
  method RunZoomStepAsWritten(refs: CanvasRefs, id: nat, now: real)
    requires refs.QueueValid() && id in refs.pending && refs.pending[id].ZoomStep?
    requires ZoomsTracked(refs) && FlipsTracked(refs)
    modifies refs, refs.pending[id].e
    ensures refs.QueueValid()
    ensures var a := old(refs.pending[id]); var p := ZoomFrame(a, now);
      a.e.State() == old(a.e.State()).(scaleX := p.scale, scaleY := p.scale, x := p.x, y := p.y)
    ensures var a := old(refs.pending[id]);
      if Progress(now, a.start, a.ms) < 1.0 then
        refs.State() == old(refs.State()).(pending := (old(refs.pending) - {id})[old(refs.nextFrame) := a],
          nextFrame := old(refs.nextFrame) + 1)
      else
        refs.State() == old(refs.State()).(pending := old(refs.pending) - {id},
          hoverAnim := if a.legacy && a.zoomIn then old(refs.hoverAnim) else old(refs.hoverAnim) - {a.e})
  {
    var a := refs.pending[id];
    var t := Progress(now, a.start, a.ms);
    ApplyZoomPose(a.e, ZoomFrame(a, now));
    if t < 1.0 {
      RequeueZoomAsWritten(refs, id);
    } else {
      FinishZoom(refs, id);
    }
  }

  /** An unfinished zoom frame as the source writes it: the step is queued again, the
    * handle map is left alone. */
  method RequeueZoomAsWritten(refs: CanvasRefs, id: nat)
    requires refs.QueueValid() && id in refs.pending
    modifies refs`pending, refs`nextFrame
    ensures refs.QueueValid()
    ensures refs.pending == (old(refs.pending) - {id})[old(refs.nextFrame) := old(refs.pending[id])]
    ensures refs.nextFrame == old(refs.nextFrame) + 1
  {
    var a := refs.pending[id];
    refs.pending := refs.pending - {id};
    var next := refs.RequestFrame(a);
  }

  /** With the zoom steps tracked, cancelling the handle recorded for `e` leaves no zoom
    * step of `e` queued: the cancel at the start of `zoomToCard` stops a running zoom. */
  lemma CancelStopsZoom(pending: map<nat, Anim>, hoverAnim: map<Entity, nat>, e: Entity)
    requires ZoomsTrackedIn(pending, hoverAnim) && e in hoverAnim
    ensures forall i :: i in pending - {hoverAnim[e]} ==> !(pending[i].ZoomStep? && pending[i].e == e)
  {
  }

  /** After one unfinished frame as the source writes it, the map still holds the first
    * handle, which is no longer queued: the bookkeeping is broken, and cancelling that
    * handle leaves the re-queued zoom step of the entity running. */
  lemma StaleHandleAfterOneFrame(pending: map<nat, Anim>, hoverAnim: map<Entity, nat>, id: nat, next: nat)
    requires ZoomsTrackedIn(pending, hoverAnim)
    requires id in pending && pending[id].ZoomStep? && next !in pending
    ensures var a := pending[id]; var p2 := (pending - {id})[next := a];
      !ZoomsTrackedIn(p2, hoverAnim) && !HandlesLiveIn(p2, hoverAnim) &&
      a.e in hoverAnim && next in p2 - {hoverAnim[a.e]} && p2[next].ZoomStep? && p2[next].e == a.e
  {
    var a := pending[id];
    var p2 := (pending - {id})[next := a];
    assert hoverAnim[a.e] == id && id != next;
    assert p2[next] == a;
  }
}
