/** The older canvas component (`src/components/tarot/TarotCanvas.tsx`): a sync loop that
  * always copies the body pose, a deal that clears the old cards and then creates and
  * tweens one card at a time onto a fanned layout, a tween that leaves the bodies dynamic,
  * and a pointer handler that turns the topmost card under the pointer over. */
module LegacyCanvas {
  import opened Common
  import opened Scene
  import opened Easing
  import CardPicking
  import PhysicsUtils
  import Deal
  import Canvas

  /** The ticker callback: both sprites of every card follow the body's position and
    * rotation (half a circle more for a reversed card), and exactly the side `isFaceUp`
    * names is shown. Nothing suppresses the position copy here. */
  method LegacySyncFrame(sprites: seq<Entity>)
    modifies sprites`x, sprites`y, sprites`rotation, sprites`frontVisible, sprites`backVisible
    ensures forall e :: e in sprites ==>
      e.State() == Canvas.Synced(old(e.State()), e.body.x, e.body.y, e.body.angle, e.reversed, false)
  {
    var i := 0;
    while i < |sprites|
      invariant 0 <= i <= |sprites|
      invariant forall e :: e in sprites[..i] ==>
        e.State() == Canvas.Synced(old(e.State()), e.body.x, e.body.y, e.body.angle, e.reversed, false)
      invariant forall e :: e in sprites && e !in sprites[..i] ==> e.State() == old(e.State())
    {
      var s := sprites[i];
      Canvas.SyncCard(s, false);
      if s in sprites[..i] {
        Canvas.SyncedIdempotent(old(s.State()), s.body.x, s.body.y, s.body.angle, s.reversed, false);
      }
      assert sprites[..i + 1] == sprites[..i] + [s];
      i := i + 1;
    }
    assert sprites[..i] == sprites;
  }

  /** The fan offset of card `i` of `n`: `(i - n / 2) * 0.08` radians. */
  function FanOffset(i: nat, n: nat): real
  {
    (i as real - n as real / 2.0) * 0.08
  }

  /** The older deal's targets: slot `i`'s percentages in pixels, turned by the slot's
    * angle (0 when it has none) plus the fan offset. */
  function LegacyTargets(slots: seq<Deal.SpreadSlot>, W: real, H: real): (r: seq<Target>)
    ensures |r| == |slots|
  {
    seq(|slots|, i requires 0 <= i < |slots| =>
      Target(slots[i].xPerc / 100.0 * W, slots[i].yPerc / 100.0 * H,
             Some(FanOffset(i, |slots|) + slots[i].angle.GetOr(0.0))))
  }

  /** The older targets are the percent targets of the newer deal, turned by the fan. */
  lemma LegacyTargetsAreFannedPercents(slots: seq<Deal.SpreadSlot>, W: real, H: real, i: nat)
    requires i < |slots|
    ensures var t := LegacyTargets(slots, W, H)[i];
      var p := Deal.PercentTargets(slots, W, H)[i];
      t.x == p.x && t.y == p.y && t.angle == Some(FanOffset(i, |slots|) + p.angle.value)
  {
  }

  /** The fan is centred: mirrored positions `i` and `n - i` turn by opposite amounts, and
    * each next card turns 0.08 radians further. */
  lemma FanShape(i: nat, n: nat)
    requires i <= n
    ensures FanOffset(i, n) + FanOffset(n - i, n) == 0.0
    ensures FanOffset(i + 1, n) - FanOffset(i, n) == 0.08
    ensures FanOffset(i, n) < 0.0 <==> 2 * i < n
  {
  }

  /** The older tween: the eased interpolation from the start pose to the target, each frame;
    * at `t = 1` it simply resolves, leaving velocities and the static flag alone. */
  class LegacyTween {
    const body: Body
    const target: Target
    const ms: real
    const start: real
    const sx: real
    const sy: real
    const sa: real
    const ta: real
    var done: bool

    ghost predicate Valid()
      reads this
    {
      ms > 0.0 && ta == target.angle.GetOr(sa)
    }

    constructor (body: Body, target: Target, ms: real, now: real)
      requires ms > 0.0
      ensures Valid() && !done
      ensures this.body == body && this.target == target && this.ms == ms && start == now
      ensures sx == body.x && sy == body.y && sa == body.angle && ta == target.angle.GetOr(body.angle)
    {
      this.body := body;
      this.target := target;
      this.ms := ms;
      start := now;
      sx := body.x;
      sy := body.y;
      sa := body.angle;
      ta := target.angle.GetOr(body.angle);
      done := false;
    }

    /** One frame at `now`: the body goes to the eased point; the tween resolves once the
      * whole duration has elapsed, with the body exactly at the target; the body's
      * velocities and its static flag are never touched. */
    method Step(now: real) returns (t: real)
      requires Valid() && !done
      modifies this`done, body`x, body`y, body`angle
      ensures Valid()
      ensures t == Progress(now, start, ms) && (now >= start ==> 0.0 <= t <= 1.0)
      ensures done <==> now - start >= ms
      ensures body.x == Lerp(sx, target.x, EaseInOutQuad(t)) && body.y == Lerp(sy, target.y, EaseInOutQuad(t))
      ensures body.angle == Lerp(sa, ta, EaseInOutQuad(t))
      ensures done ==> body.x == target.x && body.y == target.y && body.angle == ta
      ensures body.vx == old(body.vx) && body.vy == old(body.vy)
      ensures body.angularVelocity == old(body.angularVelocity) && body.isStatic == old(body.isStatic)
    {
      t := MinR(1.0, (now - start) / ms);
      ProgressBounds(now, start, ms);
      var ease := EaseInOutQuad(t);
      var nx, ny, na := Lerp(sx, target.x, ease), Lerp(sy, target.y, ease), Lerp(sa, ta, ease);
      body.x, body.y, body.angle := nx, ny, na;
      done := !(t < 1.0);
      if done {
        LerpEnds(sx, target.x, 1.0);
        LerpEnds(sy, target.y, 1.0);
        LerpEnds(sa, ta, 1.0);
      }
    }
  }

  /** The older deal's clean-up: every old card's sprites are destroyed and its body leaves
    * the world; the list is emptied. No animation handle is touched and no mask exists. */
  method ClearPrevious(refs: CanvasRefs)
    modifies refs`world, refs`sprites, refs.sprites`destroyed
    ensures refs.sprites == [] && refs.world == old(refs.world) - PhysicsUtils.SpriteBodies(old(refs.sprites))
    ensures forall e :: e in old(refs.sprites) ==> e.destroyed
  {
    var sprites := refs.sprites;
    var i := 0;
    while i < |sprites|
      invariant 0 <= i <= |sprites|
      invariant refs.world == old(refs.world) - PhysicsUtils.SpriteBodies(sprites[..i])
      invariant forall k :: 0 <= k < i ==> sprites[k].destroyed
    {
      var s := sprites[i];
      s.destroyed := true;
      refs.world := refs.world - {s.body};
      assert sprites[..i + 1] == sprites[..i] + [s];
      i := i + 1;
    }
    assert sprites[..i] == sprites;
    refs.sprites := [];
  }

  /** `makeCard` followed by `back.visible = true`: a dynamic body at the deck, added to the
    * world, and a face-down card showing only its back, pushed onto the list. */
  method MakeCard(refs: CanvasRefs, a: Deal.CardAssignment, i: nat, deckX: real, deckY: real) returns (e: Entity)
    modifies refs`world, refs`sprites
    ensures fresh(e) && fresh(e.body)
    ensures refs.sprites == old(refs.sprites) + [e] && refs.world == old(refs.world) + {e.body}
    ensures e.cardId == a.cardId && e.reversed == a.reversed && e.slotKey == a.slotKey
    ensures !e.isFaceUp && !e.frontVisible && e.backVisible
    ensures e.body.x == deckX && e.body.y == deckY && e.body.angle == 0.0 && !e.body.isStatic
  {
    var body := new Body(deckX, deckY, false, false);
    refs.world := refs.world + {body};
    e := new Entity(body, a.cardId, a.reversed, a.slotKey, i, 0.0, 0.0, 120.0, 180.0);
    e.backVisible := false;
    refs.sprites := refs.sprites + [e];
    e.backVisible := true;
  }

  /** Where the older deal stands: tweening card `index`; stopped by the exception for a
    * slot without an assignment; or finished, with `dealing` cleared. */
  datatype LegacyPhase = Tweening | Crashed | Finished

  /** The awaited create-and-tween loop of the older deal: card `index` is the newest one,
    * created when the previous card's tween resolved, and it is tweening to its target. */
  class LegacyDealRun {
    const refs: CanvasRefs
    const assignments: seq<Deal.CardAssignment>
    const targets: seq<Target>
    const deckX: real
    const deckY: real
    var index: nat
    var tween: LegacyTween?
    var phase: LegacyPhase

    ghost predicate Valid()
      reads this, refs, tween
    {
      index < |targets| &&
      (phase == Tweening ==>
        tween != null && tween.Valid() && !tween.done && index < |assignments| && |refs.sprites| == index + 1 &&
        tween.body == refs.sprites[index].body && tween.target == targets[index] && tween.ms == 650.0 && refs.dealing) &&
      (phase == Crashed ==> |refs.sprites| == index && index >= |assignments| && refs.dealing) &&
      (phase == Finished ==> index == |targets| - 1 && |refs.sprites| == |targets| && !refs.dealing)
    }

    /** The loop starts with card 0 just made and its tween begun at `now`. */
    constructor (refs: CanvasRefs, assignments: seq<Deal.CardAssignment>, targets: seq<Target>,
                 deckX: real, deckY: real, now: real)
      requires |refs.sprites| == 1 && |assignments| > 0 && |targets| > 0 && refs.dealing
      ensures Valid() && phase == Tweening && index == 0
      ensures this.refs == refs && this.assignments == assignments && this.targets == targets
      ensures this.deckX == deckX && this.deckY == deckY
      ensures tween != null && fresh(tween) && tween.start == now
    {
      this.refs := refs;
      this.assignments := assignments;
      this.targets := targets;
      this.deckX := deckX;
      this.deckY := deckY;
      index := 0;
      phase := Tweening;
      tween := new LegacyTween(refs.sprites[0].body, targets[0], 650.0, now);
    }

    /** One frame at `now`: the current card's tween steps; when it resolves, the next card
    * is made at the deck and its tween begins at `now`, the loop stops at a slot without an
      * assignment, or, after the last card, `dealing` is cleared. */
    method Step(now: real)
      requires Valid() && phase == Tweening
      modifies this`index, this`tween, this`phase, tween`done, tween.body`x, tween.body`y, tween.body`angle,
               refs`world, refs`sprites, refs`dealing
      ensures Valid()
      ensures var b := old(tween.body);
        old(tween).done ==> b.x == targets[old(index)].x && b.y == targets[old(index)].y
      ensures !old(tween).done ==> phase == Tweening && index == old(index) && tween == old(tween)
      ensures old(tween).done && old(index) + 1 == |targets| ==> phase == Finished && !refs.dealing
      ensures old(tween).done && old(index) + 1 < |targets| ==>
        index == old(index) + 1 && (phase == Crashed <==> index >= |assignments|)
      ensures phase == Tweening && index != old(index) ==>
        fresh(refs.sprites[index]) && refs.sprites[index].body.x == deckX && refs.sprites[index].body.y == deckY &&
        !refs.sprites[index].isFaceUp && refs.sprites[index].backVisible && tween.start == now
      ensures refs.sprites[..old(index) + 1] == old(refs.sprites)
    {
      var tw := tween;
      var t := tw.Step(now);
      if !tw.done {
        return;
      }
      assert tw.target == targets[index];
      if index + 1 == |targets| {
        refs.dealing := false;
        phase := Finished;
        return;
      }
      index := index + 1;
      if index >= |assignments| {
        phase := Crashed;
        return;
      }
      var e := MakeCard(refs, assignments[index], index, deckX, deckY);
      tween := new LegacyTween(e.body, targets[index], 650.0, now);
    }
  }

  /** How the older deal leaves its guard: the application, engine or deck body is
    * missing, or a deal is already running; otherwise it goes ahead. */
  predicate LegacyCanDeal(hasApp: bool, hasEngine: bool, hasDeck: bool, dealing: bool)
  {
    hasApp && hasEngine && hasDeck && !dealing
  }

  /** The older `dealToSpread` up to its first frame: with the guard passed, set `dealing`,
    * clear the old cards, draw the assignments from the seeded shuffle of the catalog
    * (assignment `i` for slot `i`), and start the loop with card 0 unless the spread is
    * empty (then `dealing` is cleared at once) or there is no assignment for slot 0 (then
    * the exception leaves `dealing` set). */
  method LegacyDealToSpread(refs: CanvasRefs, hasEngine: bool, hasDeck: bool, deckX: real, deckY: real,
                            catalog: seq<string>, rng: CardPicking.SeededRng, seedStr: string,
                            spread: Deal.Spread, now: real)
    returns (assignments: seq<Deal.CardAssignment>, run: LegacyDealRun?)
    requires CardPicking.UnitStream(rng(seedStr))
    modifies refs`dealing, refs`world, refs`sprites, refs.sprites`destroyed
    ensures !LegacyCanDeal(refs.hasApp, hasEngine, hasDeck, old(refs.dealing)) ==>
      unchanged(refs) && unchanged(refs.sprites) && run == null
    ensures LegacyCanDeal(refs.hasApp, hasEngine, hasDeck, old(refs.dealing)) ==>
      (forall e :: e in old(refs.sprites) ==> e.destroyed) &&
      assignments == Deal.AssignmentsFor(spread.slots, CardPicking.Picks(catalog, rng(seedStr), |spread.slots|)) &&
      (|spread.slots| == 0 ==> !refs.dealing && refs.sprites == [] && run == null) &&
      (|spread.slots| > 0 && |assignments| == 0 ==> refs.dealing && refs.sprites == [] && run == null) &&
      (|spread.slots| > 0 && |assignments| > 0 ==>
        run != null && fresh(run) && run.Valid() && run.phase == Tweening && run.index == 0 && run.refs == refs &&
        run.targets == LegacyTargets(spread.slots, refs.screen.width, refs.screen.height) &&
        run.assignments == assignments && |refs.sprites| == 1 && fresh(refs.sprites[0]) &&
        !refs.sprites[0].isFaceUp && refs.sprites[0].backVisible)
  {
    run := null;
    assignments := [];
    if !refs.hasApp || !hasEngine || !hasDeck {
      return;
    }
    if refs.dealing {
      return;
    }
    refs.dealing := true;
    ClearPrevious(refs);
    var picks := CardPicking.PickCardsDeterministic(rng, seedStr, catalog, |spread.slots|);
    assignments := Deal.AssignmentsFor(spread.slots, picks);
    var targets := LegacyTargets(spread.slots, refs.screen.width, refs.screen.height);
    if |spread.slots| == 0 {
      refs.dealing := false;
      return;
    }
    if |assignments| == 0 {
      return;
    }
    var e := MakeCard(refs, assignments[0], 0, deckX, deckY);
    run := new LegacyDealRun(refs, assignments, targets, deckX, deckY, now);
  }

  /** The older pointer handler: the topmost card whose shown side is visible and whose
    * bounds hold the point (PIXI's `Rectangle.contains`, given as `contains`) is turned
    * over, and no other card changes. */
  method LegacyOnPointer(sprites: seq<Entity>, contains: Canvas.Rect -> bool) returns (flipped: Option<nat>)
    modifies sprites`isFaceUp
    ensures flipped == old(Canvas.TopmostHit(sprites, contains))
    ensures flipped.Some? ==> flipped.value < |sprites|
    ensures forall e :: e in sprites ==>
      e.isFaceUp == (if flipped.Some? && e == sprites[flipped.value] then !old(e.isFaceUp) else old(e.isFaceUp))
  {
    flipped := Canvas.HitTest(sprites, contains);
    if flipped.Some? {
      Canvas.TopmostFromSome(sprites, contains, |sprites|, flipped.value);
      var s := sprites[flipped.value];
      s.isFaceUp := !s.isFaceUp;
    }
  }
}
