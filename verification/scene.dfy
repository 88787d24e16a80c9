/** The mutable scene the canvas works on: physics bodies, card entities (a PIXI view
  * container with its front and back sprites), their labels, and the shared refs the
  * canvas, the deal and the interaction handlers read and update, including the queue
  * of animation-frame callbacks. */
module Scene {
  import opened Common
  import Profiles

  datatype ZoomState = Normal | Zoomed

  /** `eventMode` of a view: "static" (clickable) or "none". */
  datatype EventMode = Static | NoEvents

  /** A Matter body: pose, velocities, the static and sensor flags, and the product of
    * every `Body.scale` factor applied to it since creation. */
  class Body {
    var x: real
    var y: real
    var angle: real
    var vx: real
    var vy: real
    var angularVelocity: real
    var isStatic: bool
    var isSensor: bool
    var sizeFactor: real

    /** `Bodies.rectangle(x, y, w, h, { isStatic, isSensor })`: at rest, unrotated. */
    constructor (x: real, y: real, isStatic: bool, isSensor: bool)
      ensures this.x == x && this.y == y && angle == 0.0
      ensures vx == 0.0 && vy == 0.0 && angularVelocity == 0.0
      ensures this.isStatic == isStatic && this.isSensor == isSensor && sizeFactor == 1.0
    {
      this.x := x;
      this.y := y;
      angle := 0.0;
      vx := 0.0;
      vy := 0.0;
      angularVelocity := 0.0;
      this.isStatic := isStatic;
      this.isSensor := isSensor;
      sizeFactor := 1.0;
    }
  }

  datatype EntityState = EntityState(
    isFaceUp: bool, zoomState: ZoomState, x: real, y: real, scaleX: real, scaleY: real,
    rotation: real, alpha: real, eventMode: EventMode, zIndex: real,
    frontVisible: bool, backVisible: bool, masked: bool, destroyed: bool, lbl: Label?)

  datatype RefsState = RefsState(
    sprites: seq<Entity>, hoverAnim: map<Entity, nat>, flipping: set<Entity>,
    currentZoomed: Entity?, baseCardScale: real, profile: Profiles.ProfileId,
    labelLayerAlpha: Option<real>, world: set<Body>, dealing: bool,
    pending: map<nat, Anim>, nextFrame: nat)

  /** A slot label (`PIXI.Text`) drawn in the label layer. */
  class Label {
    const text: string
    var x: real
    var y: real
    var rotation: real
    var alpha: real

    constructor (text: string)
      ensures this.text == text && x == 0.0 && y == 0.0 && rotation == 0.0 && alpha == 1.0
    {
      this.text := text;
      x := 0.0;
      y := 0.0;
      rotation := 0.0;
      alpha := 1.0;
    }
  }

  /** `SpriteEntity`: the body, the card it shows, and the fields of its view container
    * (position, scale, rotation, alpha, event mode, z-index), the visibility of its front
    * and back sprites, and the label attached at deal time. `frontWidth` and
    * `frontHeight` are the front sprite's own size. */
  class Entity {
    const body: Body
    const cardId: string
    const slotKey: string
    const reversed: bool
    const frontWidth: real
    const frontHeight: real
    var isFaceUp: bool
    var zoomState: ZoomState
    var x: real
    var y: real
    var scaleX: real
    var scaleY: real
    var rotation: real
    var alpha: real
    var eventMode: EventMode
    var zIndex: real
    var frontVisible: bool
    var backVisible: bool
    var masked: bool
    var destroyed: bool
    var lbl: Label?

    /** A new face-down card as the deal builds it: clickable, masked, at the spawn point,
      * stacked at `100 + 3 i`, showing only its back. */
    constructor (body: Body, cardId: string, reversed: bool, slotKey: string, i: nat,
                 spawnX: real, spawnY: real, frontWidth: real, frontHeight: real)
      ensures this.body == body && this.cardId == cardId && this.reversed == reversed
      ensures this.slotKey == slotKey && this.frontWidth == frontWidth && this.frontHeight == frontHeight
      ensures !isFaceUp && zoomState == Normal && !frontVisible && backVisible
      ensures x == spawnX && y == spawnY && scaleX == 1.0 && scaleY == 1.0 && rotation == 0.0
      ensures alpha == 1.0 && eventMode == Static && zIndex == 100.0 + 3.0 * i as real
      ensures masked && !destroyed && lbl == null
    {
      this.body := body;
      this.cardId := cardId;
      this.reversed := reversed;
      this.slotKey := slotKey;
      this.frontWidth := frontWidth;
      this.frontHeight := frontHeight;
      isFaceUp := false;
      zoomState := Normal;
      x := spawnX;
      y := spawnY;
      scaleX := 1.0;
      scaleY := 1.0;
      rotation := 0.0;
      alpha := 1.0;
      eventMode := Static;
      zIndex := 100.0 + 3.0 * i as real;
      frontVisible := false;
      backVisible := true;
      masked := true;
      destroyed := false;
      lbl := null;
    }

    /** Every mutable field at once, so that a step can say which ones it changed. */
    function State(): EntityState
      reads this
    {
      EntityState(isFaceUp, zoomState, x, y, scaleX, scaleY, rotation, alpha, eventMode, zIndex,
                  frontVisible, backVisible, masked, destroyed, lbl)
    }
  }

  /** What the zoom fit reads from a card's view: its world bounds (the front size times
    * the absolute scale, rotation not accounted for) and `scale.x`. */
  function ViewMetricsOf(frontWidth: real, frontHeight: real, scaleX: real, scaleY: real): Profiles.ViewMetrics
  {
    Profiles.ViewMetrics(frontWidth * AbsR(scaleX), frontHeight * AbsR(scaleY), scaleX)
  }

  /** A callback waiting in the `requestAnimationFrame` queue, with the values its
    * closure captured. */
  datatype Anim =
      /** A zoom step of `zoomToCard`; `legacy` marks the older handler, which keeps the
        * handle of a finished zoom-in. */
    | ZoomStep(e: Entity, fromS: real, toS: real, fromX: real, fromY: real, toX: real, toY: real,
               start: real, ms: real, zoomIn: bool, legacy: bool)
      /** A flip step; `base` is the scale the flip restores; `legacy` marks the older
        * handler, which scales only x around 1. */
    | FlipStep(e: Entity, start: real, ms: real, base: real, swapped: bool, legacy: bool)
      /** An alpha fade of one view (hide or show). */
    | FadeStep(e: Entity, from: real, to: real, start: real, ms: real)
      /** An alpha fade of the label layer. */
    | LayerFadeStep(from: real, to: real, start: real, ms: real)

  /** The objects a queued callback writes to. */
  function AnimFrame(a: Anim): set<object>
  {
    if a.LayerFadeStep? then {} else {a.e}
  }

  /** The refs shared by the canvas, the deal, the sizing helpers and the interaction
    * handlers: the live entities, the per-entity zoom handle map (`hoverAnimRef`), the
    * flipping set, the current zoomed card, the base card scale, the application (its
    * screen size and active profile), the label layer's alpha when the layer exists,
    * the physics world, the `dealing` flag, and the animation-frame queue (frame handles
    * are positive and increasing, as `requestAnimationFrame` issues them). */
  class CanvasRefs {
    var sprites: seq<Entity>
    var hoverAnim: map<Entity, nat>
    var flipping: set<Entity>
    var currentZoomed: Entity?
    var baseCardScale: real
    const hasApp: bool
    const screen: Size
    var profile: Profiles.ProfileId
    var labelLayerAlpha: Option<real>
    var world: set<Body>
    var dealing: bool
    var pending: map<nat, Anim>
    var nextFrame: nat

    constructor (hasApp: bool, screen: Size, profile: Profiles.ProfileId)
      ensures this.hasApp == hasApp && this.screen == screen && this.profile == profile
      ensures sprites == [] && hoverAnim == map[] && flipping == {} && currentZoomed == null
      ensures baseCardScale == 1.0 && labelLayerAlpha == None && world == {} && !dealing
      ensures pending == map[] && nextFrame == 1
      ensures QueueValid()
    {
      this.hasApp := hasApp;
      this.screen := screen;
      this.profile := profile;
      sprites := [];
      hoverAnim := map[];
      flipping := {};
      currentZoomed := null;
      baseCardScale := 1.0;
      labelLayerAlpha := None;
      world := {};
      dealing := false;
      pending := map[];
      nextFrame := 1;
    }

    function State(): RefsState
      reads this
    {
      RefsState(sprites, hoverAnim, flipping, currentZoomed, baseCardScale, profile,
                labelLayerAlpha, world, dealing, pending, nextFrame)
    }

    /** Every queued handle was issued already, handles are positive, and every queued
      * animation has a positive duration. */
    ghost predicate QueueValid()
      reads this
    {
      nextFrame >= 1 && forall id :: id in pending ==> 0 < id < nextFrame && pending[id].ms > 0.0
    }

    /** `requestAnimationFrame(cb)`: queue the callback under a new handle. */
    method RequestFrame(a: Anim) returns (id: nat)
      requires QueueValid() && a.ms > 0.0
      modifies this`pending, this`nextFrame
      ensures QueueValid()
      ensures id == old(nextFrame) && id > 0 && id !in old(pending)
      ensures State() == old(State()).(pending := old(pending)[id := a], nextFrame := old(nextFrame) + 1)
    {
      id := nextFrame;
      pending := pending[id := a];
      nextFrame := nextFrame + 1;
    }

    /** `cancelAnimationFrame(id)`: drop the callback if it is still queued. */
    method CancelFrame(id: nat)
      requires QueueValid()
      modifies this`pending
      ensures QueueValid()
      ensures State() == old(State()).(pending := old(pending) - {id})
    {
      pending := pending - {id};
    }
  }
}
