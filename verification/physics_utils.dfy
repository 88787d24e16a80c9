/** `PhysicsUtils`: the static deck body and the teardown of a list of card entities
  * (cancel their zoom animations, forget their handles, destroy their views and take
  * their bodies out of the physics world). */
module PhysicsUtils {
  import opened Scene
  import opened Frames

  /** `createDeckBody(x, y, w, h)`: a static, non-sensor body at rest at (x, y). */
  method CreateDeckBody(x: real, y: real) returns (b: Body)
    ensures fresh(b)
    ensures b.isStatic && !b.isSensor && b.x == x && b.y == y && b.angle == 0.0
  {
    b := new Body(x, y, true, false);
  }

  /** The frame handles `cleanupSprites` cancels: the non-zero handle the map holds for
    * each listed sprite. */
  function CleanupHandles(sprites: seq<Entity>, hoverAnim: map<Entity, nat>): set<nat>
  {
    set e | e in sprites && e in hoverAnim && hoverAnim[e] != 0 :: hoverAnim[e]
  }

  /** The bodies of the listed sprites. */
  function SpriteBodies(sprites: seq<Entity>): set<Body>
  {
    set e | e in sprites :: e.body
  }

  /** Teardown keeps the animation bookkeeping consistent: every queued zoom step of a
    * listed sprite is cancelled with its handle, no flip step is cancelled, and the
    * remaining handles still name only their own entities' zooms. */
  lemma {:induction false} CleanupKeepsBookkeeping(pending: map<nat, Anim>, hoverAnim: map<Entity, nat>,
                                                   flipping: set<Entity>, next: nat, sprites: seq<Entity>)
    requires ZoomsTrackedIn(pending, hoverAnim) && FlipsTrackedIn(pending, flipping)
    requires HandlesSafeIn(pending, hoverAnim, next) && forall id :: id in pending ==> id > 0
    ensures var p2 := pending - CleanupHandles(sprites, hoverAnim);
      var h2 := hoverAnim - set e | e in sprites;
      ZoomsTrackedIn(p2, h2) && FlipsTrackedIn(p2, flipping) && HandlesSafeIn(p2, h2, next) &&
      (forall id :: id in p2 ==> !(pending[id].ZoomStep? && pending[id].e in sprites)) &&
      (forall id :: id in pending && !pending[id].ZoomStep? ==> id in p2)
  {
    var gone := CleanupHandles(sprites, hoverAnim);
    var p2 := pending - gone;
    var h2 := hoverAnim - set e | e in sprites;
    forall id | id in pending && pending[id].ZoomStep? && pending[id].e in sprites
      ensures id !in p2
    {
      var e := pending[id].e;
      assert hoverAnim[e] == id;
      assert id in gone;
    }
    forall id | id in gone && id in pending
      ensures pending[id].ZoomStep?
    {
      var e :| e in sprites && e in hoverAnim && hoverAnim[e] != 0 && hoverAnim[e] == id;
    }
    assert FlipsTrackedIn(p2, flipping) by {
      forall e | e in flipping
        ensures exists id :: id in p2 && p2[id].FlipStep? && p2[id].e == e
      {
        var id :| id in pending && pending[id].FlipStep? && pending[id].e == e;
        assert id in p2;
      }
    }
  }

  /** `cleanupSprites(sprites, engine, hoverAnimRef)`: for every listed sprite, cancel its
    * frame handle, drop its map entry, clear its mask, destroy its view and remove its
    * body from the world. The list itself is left as it is and the entries of other
    * entities stay. */
  method CleanupSprites(refs: CanvasRefs, sprites: seq<Entity>)
    requires refs.QueueValid()
    modifies refs`pending, refs`hoverAnim, refs`world, sprites`masked, sprites`destroyed
    ensures refs.QueueValid()
    ensures refs.pending == old(refs.pending) - CleanupHandles(sprites, old(refs.hoverAnim))
    ensures refs.hoverAnim == old(refs.hoverAnim) - set e | e in sprites
    ensures refs.world == old(refs.world) - SpriteBodies(sprites)
    ensures forall e :: e in sprites ==> !e.masked && e.destroyed
  {
    var i := 0;
    while i < |sprites|
      invariant 0 <= i <= |sprites| && refs.QueueValid()
      invariant refs.pending == old(refs.pending) - CleanupHandles(sprites[..i], old(refs.hoverAnim))
      invariant refs.hoverAnim == old(refs.hoverAnim) - set e | e in sprites[..i]
      invariant refs.world == old(refs.world) - SpriteBodies(sprites[..i])
      invariant forall k :: 0 <= k < i ==> !sprites[k].masked && sprites[k].destroyed
    {
      var s := sprites[i];
      CleanupStep(refs, s);
      assert sprites[..i + 1] == sprites[..i] + [s];
      i := i + 1;
    }
    assert sprites[..i] == sprites;
  }

  /** The loop body for one sprite. */
  method CleanupStep(refs: CanvasRefs, s: Entity)
    requires refs.QueueValid()
    modifies refs`pending, refs`hoverAnim, refs`world, s`masked, s`destroyed
    ensures refs.QueueValid()
    ensures refs.pending == CancelHandle(old(refs.pending), old(refs.hoverAnim), s)
    ensures refs.hoverAnim == old(refs.hoverAnim) - {s}
    ensures refs.world == old(refs.world) - {s.body}
    ensures !s.masked && s.destroyed
  {
    CancelHandleOf(refs, s);
    refs.hoverAnim := refs.hoverAnim - {s};
    s.masked := false;
    s.destroyed := true;
    refs.world := refs.world - {s.body};
  }
}
