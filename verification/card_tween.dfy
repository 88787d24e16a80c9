/** `tweenCardToTarget`: moves a card's body from where it is to a target over `ms`
  * milliseconds, one animation frame at a time, reporting progress to optional callbacks
  * and pinning the body in place when it arrives. */
module CardTween {
  import opened Common
  import opened Easing
  import opened Scene

  /** The option record; a plain number argument `n` stands for `{ ms: n }`. */
  datatype TweenOptions = TweenOptions(ms: Option<real>, ease: Option<real -> real>)

  /** `opts.ease ?? easeInOutQuad`, applied to `t`. */
  function EaseOf(ease: Option<real -> real>, t: real): real
  {
    match ease
    case None => EaseInOutQuad(t)
    case Some(f) => f(t)
  }

  /** One running tween: the values the promise executor captured (start time, start
    * pose, target angle) and a record of the callbacks fired so far: `begun` counts
    * `onBegin`, `updates` lists the `t` passed to each `onUpdate`, `completed` counts
    * `onComplete`. */
  class CardTween {
    const body: Body
    const target: Target
    const ms: real
    const ease: Option<real -> real>
    const start: real
    const sx: real
    const sy: real
    const sa: real
    const ta: real
    var done: bool
    var begun: nat
    var updates: seq<real>
    var completed: nat

    /** The target angle is the start angle when the target gives none; `onBegin` has
      * fired once; `onComplete` fires once, with the last update at t = 1,
      * and every earlier update is below 1. */
    ghost predicate Valid()
      reads this
    {
      ms > 0.0 && begun == 1 && ta == target.angle.GetOr(sa) &&
      completed == (if done then 1 else 0) &&
      (done ==> |updates| > 0 && updates[|updates| - 1] == 1.0) &&
      (forall k :: 0 <= k < |updates| && (k < |updates| - 1 || !done) ==> updates[k] < 1.0)
    }

    /** The promise executor at time `now`: resolve the options, capture the start pose,
      * fire `onBegin`; the first frame is a later `Step`. */
    constructor (entity: Entity, target: Target, opts: TweenOptions, now: real)
      requires opts.ms.GetOr(700.0) > 0.0
      ensures Valid() && !done && updates == [] && completed == 0
      ensures body == entity.body && this.target == target && start == now
      ensures ms == opts.ms.GetOr(700.0) && ease == opts.ease
      ensures sx == entity.body.x && sy == entity.body.y && sa == entity.body.angle
      ensures ta == target.angle.GetOr(entity.body.angle)
    {
      body := entity.body;
      this.target := target;
      ms := opts.ms.GetOr(700.0);
      ease := opts.ease;
      start := now;
      sx := entity.body.x;
      sy := entity.body.y;
      sa := entity.body.angle;
      ta := target.angle.GetOr(entity.body.angle);
      done := false;
      begun := 1;
      updates := [];
      completed := 0;
    }

    /** One animation frame at time `now`: place the body at the eased point between the
      * start pose and the target, report `t`, and at `t = 1` stop the body, make it
      * static and fire `onComplete`. */
    method Step(now: real) returns (t: real)
      requires Valid() && !done
      modifies this, body
      ensures Valid()
      ensures t == Progress(now, start, ms)
      ensures now >= start ==> 0.0 <= t <= 1.0
      ensures done <==> now - start >= ms
      ensures body.x == Lerp(sx, target.x, EaseOf(ease, t))
      ensures body.y == Lerp(sy, target.y, EaseOf(ease, t))
      ensures body.angle == Lerp(sa, ta, EaseOf(ease, t))
      ensures target.angle.None? ==> body.angle == sa
      ensures updates == old(updates) + [t]
      ensures done ==> body.vx == 0.0 && body.vy == 0.0 && body.angularVelocity == 0.0 && body.isStatic
      ensures done && ease.None? ==> body.x == target.x && body.y == target.y && body.angle == ta
      ensures !done ==> body.vx == old(body.vx) && body.vy == old(body.vy)
      ensures !done ==> body.angularVelocity == old(body.angularVelocity) && body.isStatic == old(body.isStatic)
      ensures body.isSensor == old(body.isSensor) && body.sizeFactor == old(body.sizeFactor)
    {
      t := Progress(now, start, ms);
      ProgressBounds(now, start, ms);
      var k := EaseOf(ease, t);
      body.x := Lerp(sx, target.x, k);
      body.y := Lerp(sy, target.y, k);
      body.angle := Lerp(sa, ta, k);
      if target.angle.None? {
        LerpEnds(sa, sa, k);
      }
      updates := updates + [t];
      if t < 1.0 {
        done := false;
      } else {
        body.vx := 0.0;
        body.vy := 0.0;
        body.angularVelocity := 0.0;
        body.isStatic := true;
        completed := completed + 1;
        done := true;
        if ease.None? {
          EaseInOutQuadRange(1.0);
          LerpEnds(sx, target.x, 1.0);
          LerpEnds(sy, target.y, 1.0);
          LerpEnds(sa, ta, 1.0);
        }
      }
    }
  }

  /** A run of frames ends the tween exactly when its last timestamp is at least `ms`
    * after the start; before that every frame leaves it running. */
  lemma TweenFinishesAtDuration(start: real, ms: real, now: real)
    requires ms > 0.0
    ensures Progress(now, start, ms) >= 1.0 <==> now >= start + ms
  {
    ProgressBounds(now, start, ms);
  }
}
