/** The background and animation helpers of the Pixi setup: scaling a background sprite to
  * cover the renderer, the gradient background that fades in over the ticker, and the
  * generic number tween over animation frames. */
module PixiSetup {
  import opened Common
  import opened Easing

  /** A background sprite: its texture's size and the fields the helpers set. */
  class BgSprite {
    const texWidth: real
    const texHeight: real
    var scale: real
    var x: real
    var y: real

    constructor (texWidth: real, texHeight: real)
      ensures this.texWidth == texWidth && this.texHeight == texHeight
      ensures scale == 1.0 && x == 0.0 && y == 0.0
    {
      this.texWidth := texWidth;
      this.texHeight := texHeight;
      scale := 1.0;
      x := 0.0;
      y := 0.0;
    }
  }

  /** `max(W / texW, H / texH)`, a zero texture dimension read as 1. */
  function CoverScale(W: real, H: real, texW: real, texH: real): real
  {
    MaxR(W / Or1(texW), H / Or1(texH))
  }

  /** `coverSpriteTo(app, sprite)`: the sprite takes the cover scale and is centred on the
    * renderer. */
  method CoverSpriteTo(screen: Size, sprite: BgSprite)
    modifies sprite`scale, sprite`x, sprite`y
    ensures sprite.scale == CoverScale(screen.width, screen.height, sprite.texWidth, sprite.texHeight)
    ensures sprite.x == (screen.width - Or1(sprite.texWidth) * sprite.scale) / 2.0
    ensures sprite.y == (screen.height - Or1(sprite.texHeight) * sprite.scale) / 2.0
  {
    var W := screen.width;
    var H := screen.height;
    var texW := if sprite.texWidth != 0.0 then sprite.texWidth else 1.0;
    var texH := if sprite.texHeight != 0.0 then sprite.texHeight else 1.0;
    var scale := MaxR(W / texW, H / texH);
    sprite.scale := scale;
    sprite.x, sprite.y := (W - texW * scale) / 2.0, (H - texH * scale) / 2.0;
  }

  /** Like CSS `background-size: cover`: for a texture of non-negative size, the scaled
    * texture is at least as wide and as tall as the renderer, it fits one of the two
    * exactly, and the centred position puts its top-left corner at or beyond the
    * renderer's, so no edge of the renderer shows. */
  lemma CoverCovers(W: real, H: real, texW: real, texH: real)
    requires texW >= 0.0 && texH >= 0.0
    ensures var s := CoverScale(W, H, texW, texH);
      Or1(texW) * s >= W && Or1(texH) * s >= H &&
      (Or1(texW) * s == W || Or1(texH) * s == H) &&
      (W - Or1(texW) * s) / 2.0 <= 0.0 && (H - Or1(texH) * s) / 2.0 <= 0.0
  {
    var tw, th := Or1(texW), Or1(texH);
    var s := CoverScale(W, H, texW, texH);
    assert tw > 0.0 && th > 0.0;
    assert s >= W / tw && s >= H / th;
    MulLe(W / tw, s, tw);
    MulLe(H / th, s, th);
  }

  /** The per-tick alpha step of the gradient background's fade-in. */
  const FadeStep: real := 0.06

  /** The gradient background sprite: its alpha, whether its fade callback is still on the
    * ticker, and whether it has been destroyed. */
  class Gradient {
    var alpha: real
    var fading: bool
    var destroyed: bool

    /** The new sprite starts invisible with its fade registered. */
    constructor ()
      ensures alpha == 0.0 && fading && !destroyed
    {
      alpha := 0.0;
      fading := true;
      destroyed := false;
    }

    /** One ticker call of the fade: alpha grows by 0.06 up to 1, and the callback removes
      * itself once alpha has reached 1. */
    method FadeTick()
      requires fading
      modifies this`alpha, this`fading
      ensures alpha == MinR(1.0, old(alpha) + FadeStep)
      ensures fading <==> alpha < 1.0
      ensures alpha <= 1.0
    {
      alpha := MinR(1.0, alpha + 0.06);
      if alpha >= 1.0 {
        fading := false;
      }
    }
  }

  /** The alpha after `n` fade ticks from 0. */
  function AlphaAfter(n: nat): real
  {
    MinR(1.0, FadeStep * n as real)
  }

  /** One more tick takes the alpha after `n` ticks to the alpha after `n + 1`. */
  lemma AlphaAfterStep(n: nat)
    ensures MinR(1.0, AlphaAfter(n) + FadeStep) == AlphaAfter(n + 1)
  {
  }

  /** Starting from 0, the fade stays on the ticker for exactly 17 ticks: the alpha is
    * below 1 after each of the first 16 and exactly 1 after the 17th and every later one. */
  lemma FadeTakesSeventeenTicks(n: nat)
    ensures AlphaAfter(n) < 1.0 <==> n <= 16
    ensures n >= 17 ==> AlphaAfter(n) == 1.0
  {
    if n >= 17 {
      assert FadeStep * n as real >= FadeStep * 17.0;
    }
  }

  /** `gradientRef.current`, where the canvas keeps its gradient background. */
  class GradientRef {
    var current: Gradient?

    constructor ()
      ensures current == null
    {
      current := null;
    }
  }

  /** The old gradient (if any) in a frame clause. */
  function CurrentOf(ref: GradientRef?): set<Gradient>
    reads ref
  {
    if ref != null && ref.current != null then {ref.current} else {}
  }

  /** `drawGradientBg(app, from, to, gradientRef)`: the gradient in the ref is destroyed,
    * a new invisible gradient with its fade registered replaces it, and it is returned. */
  method DrawGradientBg(ref: GradientRef?) returns (g: Gradient)
    modifies if ref != null then {ref} else {}, CurrentOf(ref)`destroyed
    ensures fresh(g) && g.alpha == 0.0 && g.fading && !g.destroyed
    ensures ref != null ==> ref.current == g
    ensures ref != null && old(ref.current) != null ==> old(ref.current).destroyed
  {
    if ref != null && ref.current != null {
      ref.current.destroyed := true;
      ref.current := null;
    }
    g := new Gradient();
    if ref != null {
      ref.current := g;
    }
  }

  /** One running `tweenNumber(from, to, ms, onUpdate, onDone)`: the values reported to
    * `onUpdate` so far, the calls of `onDone`, and the frame handle the canceller would
    * cancel. Frame handles come from outside, as `requestAnimationFrame` issues them. */
  class NumberTween {
    const from: real
    const to: real
    const ms: real
    const start: real
    const hasOnDone: bool
    var done: bool
    var reported: seq<real>
    var doneCalls: nat
    var raf: nat

    /** Every report but a final one comes from a frame before the end; the final report is
      * exactly `to`, and `onDone` (when given) has fired once after it. */
    ghost predicate Valid()
      reads this
    {
      ms > 0.0 &&
      doneCalls == (if done && hasOnDone then 1 else 0) &&
      (done ==> |reported| > 0 && reported[|reported| - 1] == to)
    }

    /** The helper at time `now`, its first frame requested under `handle`. */
    constructor (from: real, to: real, ms: real, hasOnDone: bool, now: real, handle: nat)
      requires ms > 0.0
      ensures Valid() && !done && reported == [] && raf == handle
      ensures this.from == from && this.to == to && this.ms == ms && this.hasOnDone == hasOnDone && start == now
    {
      this.from := from;
      this.to := to;
      this.ms := ms;
      this.hasOnDone := hasOnDone;
      start := now;
      done := false;
      reported := [];
      doneCalls := 0;
      raf := handle;
    }

    /** One frame at `now`: report the eased value; request the next frame (under `handle`)
      * while `t < 1`, and otherwise call `onDone`. */
    method Step(now: real, handle: nat) returns (v: real)
      requires Valid() && !done
      modifies this`done, this`reported, this`doneCalls, this`raf
      ensures Valid()
      ensures v == Lerp(from, to, EaseInOutQuad(Progress(now, start, ms)))
      ensures reported == old(reported) + [v]
      ensures done <==> now - start >= ms
      ensures done ==> v == to && raf == old(raf)
      ensures !done ==> raf == handle
    {
      var t := MinR(1.0, (now - start) / ms);
      ProgressBounds(now, start, ms);
      var e := if t < 0.5 then 2.0 * t * t else -1.0 + (4.0 - 2.0 * t) * t;
      v := from + (to - from) * e;
      reported := reported + [v];
      if t < 1.0 {
        raf := handle;
      } else {
        assert t == 1.0 && e == 1.0;
        LerpEnds(from, to, 1.0);
        done := true;
        if hasOnDone {
          doneCalls := doneCalls + 1;
        }
      }
    }

    /** The canceller returned by `tweenNumber`: it cancels the handle of the frame that is
      * currently requested, which is always the latest one. */
    method Canceller() returns (id: nat)
      ensures id == raf
    {
      id := raf;
    }
  }

  /** A number tween never overshoots: every value it reports lies between `from` and `to`
    * for a frame at or after the start. */
  lemma TweenNumberBetween(from: real, to: real, now: real, start: real, ms: real)
    requires ms > 0.0 && now >= start
    ensures var v := Lerp(from, to, EaseInOutQuad(Progress(now, start, ms)));
      MinR(from, to) <= v <= MaxR(from, to)
  {
    var t := Progress(now, start, ms);
    ProgressBounds(now, start, ms);
    EaseInOutQuadRange(t);
    LerpBetween(from, to, EaseInOutQuad(t));
  }
}
