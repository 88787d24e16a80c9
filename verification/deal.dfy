/** `dealToSpread`: the deal of a new reading. It validates the refs and the catalog,
  * tears down the previous cards, draws seeded assignments for the spread's slots,
  * creates one face-down card (body, view, label) per slot at the spawn point, computes
  * the slot targets, and then tweens the cards to their targets one at a time, fading each
  * label in under its card, before clearing the `dealing` flag. */
module Deal {
  import opened Common
  import Profiles
  import opened Scene
  import CardPicking
  import DealSpawn
  import ResponsiveSizing
  import PhysicsUtils
  import HoroscopeLayout
  import LayoutOverrides
  import CardTween
  import opened Easing

  datatype SpreadSlot = SpreadSlot(idKey: string, xPerc: real, yPerc: real, angle: Option<real>, cardLabel: Option<string>)

  datatype Spread = Spread(id: string, slots: seq<SpreadSlot>)

  datatype CardAssignment = CardAssignment(slotKey: string, cardId: string, reversed: bool)

  /** The size every card is drawn at before the profile's pre-scale. */
  const DefaultCardW: real := 200.0
  const DefaultCardH: real := 300.0

  /** Assignment `i` pairs slot `i`'s key with pick `i`. */
  function AssignmentsFor(slots: seq<SpreadSlot>, picks: seq<CardPicking.CardPick>): (r: seq<CardAssignment>)
    requires |picks| <= |slots|
    ensures |r| == |picks|
    ensures forall i :: 0 <= i < |r| ==>
      r[i].slotKey == slots[i].idKey && r[i].cardId == picks[i].id && r[i].reversed == picks[i].reversed
  {
    seq(|picks|, i requires 0 <= i < |picks| => CardAssignment(slots[i].idKey, picks[i].id, picks[i].reversed))
  }

  /** Dealt from a catalog of distinct ids, no card appears in two slots, and every card
    * comes from the catalog. */
  lemma AssignmentsDistinctCards(slots: seq<SpreadSlot>, catalog: seq<string>, s: CardPicking.Stream)
    requires CardPicking.UnitStream(s) && CardPicking.Distinct(catalog)
    requires |CardPicking.Picks(catalog, s, |slots|)| <= |slots|
    ensures var r := AssignmentsFor(slots, CardPicking.Picks(catalog, s, |slots|));
      (forall i, j :: 0 <= i < j < |r| ==> r[i].cardId != r[j].cardId) &&
      (forall i :: 0 <= i < |r| ==> r[i].cardId in catalog)
  {
    var picks := CardPicking.Picks(catalog, s, |slots|);
    CardPicking.PicksDistinct(catalog, s, |slots|);
    forall i | 0 <= i < |picks|
      ensures picks[i].id in catalog
    {
      CardPicking.PicksFromCatalog(catalog, s, |slots|, i);
    }
  }

  /** `slotKey.replace(/-/g, " ").toLowerCase()`. */
  function KeyLabel(key: string): (r: string)
    ensures |r| == |key|
  {
    seq(|key|, i requires 0 <= i < |key| => if key[i] == '-' then ' ' else LowerAscii(key[i]))
  }

  /** The default label has no dash and no upper-case ASCII letter left, and every other
    * character is kept where it was. */
  lemma KeyLabelShape(key: string)
    ensures forall i :: 0 <= i < |key| ==> KeyLabel(key)[i] != '-' && !('A' <= KeyLabel(key)[i] <= 'Z')
    ensures forall i :: 0 <= i < |key| && key[i] != '-' && !('A' <= key[i] <= 'Z') ==> KeyLabel(key)[i] == key[i]
  {
  }

  /** `spread.slots.find(s => s.idKey === key)`. */
  function FindSlot(slots: seq<SpreadSlot>, key: string): (r: Option<nat>)
    ensures r.Some? ==> r.value < |slots| && slots[r.value].idKey == key
    ensures r.Some? ==> forall i :: 0 <= i < r.value ==> slots[i].idKey != key
    ensures r.None? ==> forall i :: 0 <= i < |slots| ==> slots[i].idKey != key
  {
    if |slots| == 0 then None
    else if slots[0].idKey == key then Some(0)
    else match FindSlot(slots[1..], key)
      case None => None
      case Some(i) => Some(i + 1)
  }

  /** The label text: the first matching slot's `cardLabel` when it has one, else the
    * slot key with dashes turned into spaces, lower-cased. */
  function LabelText(slots: seq<SpreadSlot>, key: string): string
  {
    match FindSlot(slots, key)
    case Some(i) => slots[i].cardLabel.GetOr(KeyLabel(key))
    case None => KeyLabel(key)
  }

  /** A slot that carries a label is shown with it, and a key no slot declares falls back
    * to the dash-free lower-cased key. */
  lemma LabelTextCases(slots: seq<SpreadSlot>, i: nat)
    requires i < |slots| && forall j :: 0 <= j < i ==> slots[j].idKey != slots[i].idKey
    ensures slots[i].cardLabel.Some? ==> LabelText(slots, slots[i].idKey) == slots[i].cardLabel.value
    ensures slots[i].cardLabel.None? ==> LabelText(slots, slots[i].idKey) == KeyLabel(slots[i].idKey)
  {
    var r := FindSlot(slots, slots[i].idKey);
    assert r == Some(i);
  }

  /** The percent targets of a non-horoscope spread: `(xPerc / 100 W, yPerc / 100 H)`,
    * angle 0 when the slot gives none. */
  function PercentTargets(slots: seq<SpreadSlot>, W: real, H: real): (r: seq<Target>)
    ensures |r| == |slots|
    ensures forall i :: 0 <= i < |r| ==> r[i].angle == Some(slots[i].angle.GetOr(0.0))
  {
    seq(|slots|, i requires 0 <= i < |slots| =>
      Target(slots[i].xPerc / 100.0 * W, slots[i].yPerc / 100.0 * H, Some(slots[i].angle.GetOr(0.0))))
  }

  /** A percent target converts back to the slot's percentages on a canvas of positive
    * size. */
  lemma PercentTargetsInvert(slots: seq<SpreadSlot>, W: real, H: real, i: nat)
    requires W > 0.0 && H > 0.0 && i < |slots|
    ensures PercentTargets(slots, W, H)[i].x / W * 100.0 == slots[i].xPerc
    ensures PercentTargets(slots, W, H)[i].y / H * 100.0 == slots[i].yPerc
  {
  }

  /** Where a label sits under its card: 20 pixels above the card's bottom edge. */
  function LabelY(bodyY: real, frontHeight: real): real
  {
    bodyY + frontHeight / 2.0 - 20.0
  }

  /** `onUpdate`'s fade: from progress 0.15 on, a label still below full alpha takes
    * `min(1, (t - 0.15) / 0.2)`. */
  function LabelAlphaOnUpdate(alpha: real, t: real): real
  {
    if t >= 0.15 && alpha < 1.0 then MinR(1.0, (t - 0.15) / 0.2) else alpha
  }

  /** The label fade keeps alpha in [0, 1], leaves it alone before progress 0.15, and has
    * it fully shown from progress 0.35 on. */
  lemma LabelFadeIn(alpha: real, t: real)
    requires 0.0 <= alpha <= 1.0
    ensures 0.0 <= LabelAlphaOnUpdate(alpha, t) <= 1.0
    ensures t < 0.15 ==> LabelAlphaOnUpdate(alpha, t) == alpha
    ensures t >= 0.35 ==> LabelAlphaOnUpdate(alpha, t) == 1.0
  {
    if t >= 0.35 {
      assert (t - 0.15) / 0.2 >= 1.0;
    }
  }

  /** The label's alpha as a function of the tween's progress: 0 before 0.15, then
    * rising linearly to 1 at 0.35. */
  function FadeCurve(t: real): real
  {
    if t < 0.15 then 0.0 else MinR(1.0, (t - 0.15) / 0.2)
  }

  /** A label that starts hidden follows the fade curve: an update at progress `t2` of a
    * label at the curve's value for an earlier progress `t1` brings it to the curve's value
    * for `t2`, which is no smaller, so the label never dims during its tween. */
  lemma LabelFollowsFadeCurve(t1: real, t2: real)
    requires t1 <= t2
    ensures LabelAlphaOnUpdate(0.0, t1) == FadeCurve(t1)
    ensures LabelAlphaOnUpdate(FadeCurve(t1), t2) == FadeCurve(t2)
    ensures FadeCurve(t1) <= FadeCurve(t2)
  {
    if t1 >= 0.15 {
      assert (t1 - 0.15) / 0.2 <= (t2 - 0.15) / 0.2;
    }
  }

  /** The guard at the top of the deal: an application, a physics engine and a non-empty
    * catalog. */
  predicate CanDeal(hasApp: bool, hasEngine: bool, catalog: seq<string>)
  {
    hasApp && hasEngine && |catalog| > 0
  }

  /** A freshly created card of the deal, before its tween: face-down showing its back,
    * normal, clickable, at the spawn point, stacked at `100 + 3 i`, pre-scaled (view and
    * body together) from scale 1, with an invisible label. */
  ghost predicate NewCard(e: Entity, a: CardAssignment, i: nat, spawn: DealSpawn.Point, preScale: real, text: string)
    reads e, e.body, e.lbl
  {
    NewView(e, a, i, spawn, preScale) && e.lbl.text == text && e.lbl.alpha == 0.0
  }

  /** The view and body part of `NewCard`. */
  ghost predicate NewView(e: Entity, a: CardAssignment, i: nat, spawn: DealSpawn.Point, preScale: real)
    reads e, e.body
  {
    var moves := ResponsiveSizing.PreScaleMoves(1.0, preScale);
    e.cardId == a.cardId && e.slotKey == a.slotKey && e.reversed == a.reversed &&
    !e.isFaceUp && e.zoomState == Normal && !e.frontVisible && e.backVisible &&
    e.x == spawn.x && e.y == spawn.y && e.rotation == 0.0 && e.alpha == 1.0 && e.eventMode == Static &&
    e.zIndex == 100.0 + 3.0 * i as real && e.masked && !e.destroyed &&
    e.frontWidth == DefaultCardW && e.frontHeight == DefaultCardH &&
    e.scaleX == ResponsiveSizing.ScaleAfter(1.0, preScale, moves) && e.scaleY == e.scaleX &&
    e.body.x == spawn.x && e.body.y == spawn.y && e.body.angle == 0.0 && !e.body.isStatic && e.body.isSensor &&
    e.body.sizeFactor == e.scaleX && e.lbl != null
  }

  /** One card of the creation loop: a sensor body added to the world, a face-down view at
    * the spawn point, the profile's pre-scale, and a hidden label. */
  method CreateCard(refs: CanvasRefs, a: CardAssignment, i: nat, spawn: DealSpawn.Point,
                    profile: Profiles.ProfileId, text: string)
    returns (e: Entity, preScale: real)
    modifies refs`world
    ensures fresh(e) && fresh(e.body) && fresh(e.lbl)
    ensures refs.world == old(refs.world) + {e.body}
    ensures preScale == ResponsiveSizing.PreScaleFor(refs.screen.width, Profiles.ProfileOf(profile).baseWidthRel, DefaultCardW)
    ensures NewCard(e, a, i, spawn, preScale, text)
  {
    var body := new Body(spawn.x, spawn.y, false, true);
    refs.world := refs.world + {body};
    e := new Entity(body, a.cardId, a.reversed, a.slotKey, i, spawn.x, spawn.y, DefaultCardW, DefaultCardH);
    preScale := ResponsiveSizing.PreScaleEntityForProfile(refs.screen, e, Profiles.ProfileOf(profile), DefaultCardW);
    var l := new Label(text);
    l.alpha := 0.0;
    e.lbl := l;
  }

  /** Distinct cards, each with a body and a label of its own. */
  ghost predicate OwnParts(cards: seq<Entity>)
    reads cards
  {
    (forall i :: 0 <= i < |cards| ==> cards[i].lbl != null) &&
    forall i, j :: 0 <= i < |cards| && 0 <= j < |cards| && i != j ==>
      cards[i] != cards[j] && cards[i].body != cards[j].body && cards[i].lbl != cards[j].lbl
  }

  /** A new card with parts of its own keeps the parts of a list distinct. */
  lemma OwnPartsExtend(cards: seq<Entity>, e: Entity)
    requires OwnParts(cards) && e.lbl != null
    requires forall k :: 0 <= k < |cards| ==> cards[k] != e && cards[k].body != e.body && cards[k].lbl != e.lbl
    ensures OwnParts(cards + [e])
  {
  }

  /** One pass of the creation loop: card `i` is created, pushed onto the sprite list,
    * and, for the first card, its pre-scale becomes the base scale. */
  method AddCard(refs: CanvasRefs, a: CardAssignment, i: nat, spawn: DealSpawn.Point,
                 profile: Profiles.ProfileId, text: string)
    requires |refs.sprites| == i && OwnParts(refs.sprites)
    modifies refs`world, refs`sprites, refs`baseCardScale
    ensures |refs.sprites| == i + 1 && refs.sprites[..i] == old(refs.sprites) && OwnParts(refs.sprites)
    ensures refs.world == old(refs.world) + {refs.sprites[i].body}
    ensures fresh(refs.sprites[i]) && fresh(refs.sprites[i].body) && fresh(refs.sprites[i].lbl)
    ensures NewCard(refs.sprites[i], a, i, spawn,
                    ResponsiveSizing.PreScaleFor(refs.screen.width, Profiles.ProfileOf(profile).baseWidthRel, DefaultCardW), text)
    ensures refs.baseCardScale == if i == 0 then ResponsiveSizing.PreScaleFor(refs.screen.width, Profiles.ProfileOf(profile).baseWidthRel, DefaultCardW) else old(refs.baseCardScale)
  {
    ghost var cards := refs.sprites;
    var e, preScale := CreateCard(refs, a, i, spawn, profile, text);
    if i == 0 {
      refs.baseCardScale := preScale;
    }
    refs.sprites := refs.sprites + [e];
    OwnPartsExtend(cards, e);
  }

  /** The creation loop: one card per slot, in slot order, from the assignments; stops
    * (the source throws) at the first slot without an assignment. */
  method CreateCards(refs: CanvasRefs, slots: seq<SpreadSlot>, assignments: seq<CardAssignment>,
                     spawn: DealSpawn.Point, profile: Profiles.ProfileId)
    returns (complete: bool)
    requires refs.sprites == []
    modifies refs`world, refs`sprites, refs`baseCardScale
    ensures complete <==> |assignments| >= |slots|
    ensures |refs.sprites| == if complete then |slots| else |assignments|
    ensures OwnParts(refs.sprites)
    ensures refs.world == old(refs.world) + ResponsiveSizing.BodiesOf(refs.sprites)
    ensures forall k :: 0 <= k < |refs.sprites| ==>
      fresh(refs.sprites[k]) && fresh(refs.sprites[k].body) && fresh(refs.sprites[k].lbl) &&
      NewCard(refs.sprites[k], assignments[k], k, spawn,
              ResponsiveSizing.PreScaleFor(refs.screen.width, Profiles.ProfileOf(profile).baseWidthRel, DefaultCardW),
              LabelText(slots, assignments[k].slotKey))
    ensures |refs.sprites| > 0 ==>
      refs.baseCardScale == ResponsiveSizing.PreScaleFor(refs.screen.width, Profiles.ProfileOf(profile).baseWidthRel, DefaultCardW)
    ensures |refs.sprites| == 0 ==> refs.baseCardScale == old(refs.baseCardScale)
  {
    var pre := ResponsiveSizing.PreScaleFor(refs.screen.width, Profiles.ProfileOf(profile).baseWidthRel, DefaultCardW);
    var i := 0;
    while i < |slots|
      invariant 0 <= i <= |slots| && i <= |assignments| && |refs.sprites| == i
      invariant OwnParts(refs.sprites)
      invariant refs.world == old(refs.world) + ResponsiveSizing.BodiesOf(refs.sprites)
      invariant forall k :: 0 <= k < i ==>
        fresh(refs.sprites[k]) && fresh(refs.sprites[k].body) && fresh(refs.sprites[k].lbl) &&
        NewCard(refs.sprites[k], assignments[k], k, spawn, pre, LabelText(slots, assignments[k].slotKey))
      invariant i > 0 ==> refs.baseCardScale == pre
      invariant i == 0 ==> refs.baseCardScale == old(refs.baseCardScale)
    {
      if i >= |assignments| {
        return false;
      }
      ghost var before := refs.sprites;
      AddCard(refs, assignments[i], i, spawn, profile, LabelText(slots, assignments[i].slotKey));
      forall k | 0 <= k < i
        ensures fresh(refs.sprites[k]) && fresh(refs.sprites[k].body) && fresh(refs.sprites[k].lbl)
        ensures NewCard(refs.sprites[k], assignments[k], k, spawn, pre, LabelText(slots, assignments[k].slotKey))
      {
        assert refs.sprites[k] == before[k];
      }
      i := i + 1;
    }
    return true;
  }

  /** The bodies of a list of cards. */
  function BodiesOf(cards: seq<Entity>): set<Body>
  {
    ResponsiveSizing.BodiesOf(cards)
  }

  /** The labels of a list of cards. */
  function LabelsOf(cards: seq<Entity>): set<Label>
    reads cards
  {
    set e | e in cards && e.lbl != null :: e.lbl
  }

  /** The label of the first card, which the deal's first tween hides. */
  function FirstLabel(cards: seq<Entity>): set<Label>
    reads cards
  {
    if |cards| > 0 && cards[0].lbl != null then {cards[0].lbl} else {}
  }

  /** A card whose tween has finished: its body rests static at the target and its label
    * is fully shown, unrotated, under it. */
  ghost predicate Settled(e: Entity, t: Target)
    reads e, e.body, e.lbl
  {
    e.body.x == t.x && e.body.y == t.y && (t.angle.Some? ==> e.body.angle == t.angle.value) &&
    e.body.isStatic && e.body.vx == 0.0 && e.body.vy == 0.0 && e.body.angularVelocity == 0.0 &&
    e.lbl != null && e.lbl.alpha == 1.0 && e.lbl.rotation == 0.0 &&
    e.lbl.x == e.body.x && e.lbl.y == LabelY(e.body.y, e.frontHeight)
  }

  /** The tween loop of the deal after the assets have loaded: card `index` is being
    * tweened to `targets[index]` (650 ms, default ease), the cards before it have
    * settled, and `dealing` stays set until every card has. `failed` records the
    * exception the source raises when a card has no target; `clock` is the last frame
    * time. */
  class DealRun {
    const refs: CanvasRefs
    const cards: seq<Entity>
    const targets: seq<Target>
    var index: nat
    var tween: CardTween.CardTween?
    var failed: bool
    var clock: real

    ghost predicate Valid()
      reads this, refs, cards, tween, BodiesOf(cards), LabelsOf(cards)
    {
      refs.sprites == cards && OwnParts(cards) && index <= |cards| &&
      (refs.dealing <==> index < |cards|) &&
      (failed ==> index < |cards| && index >= |targets|) &&
      (index < |cards| && !failed ==> TweenRunning(cards[index], targets, index, tween, clock)) &&
      SettledUpTo(cards, targets, index)
    }

    /** The first `n` cards have settled at their targets. */
    static ghost predicate SettledUpTo(cards: seq<Entity>, targets: seq<Target>, n: nat)
      reads set k | 0 <= k < n && k < |cards| :: cards[k]
      reads set k | 0 <= k < n && k < |cards| :: cards[k].body
      reads set k | 0 <= k < n && k < |cards| :: cards[k].lbl
    {
      n <= |cards| && forall k :: 0 <= k < n ==> k < |targets| && Settled(cards[k], targets[k])
    }

    /** A card that settles extends the settled prefix. */
    static lemma SettledExtend(cards: seq<Entity>, targets: seq<Target>, n: nat)
      requires SettledUpTo(cards, targets, n) && n < |cards| && n < |targets| && Settled(cards[n], targets[n])
      ensures SettledUpTo(cards, targets, n + 1)
    {
    }

    /** The running tween of card `i`: it drives the card's body to `targets[i]` over 650 ms
      * with the default ease, started no later than `clock`, and the card's label is
      * still at the fade curve's value for the last progress reported. */
    static ghost predicate TweenRunning(e: Entity, targets: seq<Target>, i: nat, tween: CardTween.CardTween?, clock: real)
      reads e, e.lbl, tween
    {
      i < |targets| && tween != null && tween.Valid() && !tween.done && tween.body == e.body &&
      tween.target == targets[i] && tween.ease.None? && tween.ms == 650.0 && tween.start <= clock &&
      e.lbl != null &&
      (|tween.updates| == 0 ==> e.lbl.alpha == 0.0) &&
      (|tween.updates| > 0 ==>
        e.lbl.alpha == FadeCurve(tween.updates[|tween.updates| - 1]) &&
        tween.updates[|tween.updates| - 1] <= Progress(clock, tween.start, tween.ms))
    }

    /** `for (i = 0; ...)` entered at time `now`: the first card's tween starts (its
      * `onBegin` hides the label); with no cards the final label pass runs and `dealing`
      * is cleared at once. */
    constructor (refs: CanvasRefs, targets: seq<Target>, now: real)
      requires OwnParts(refs.sprites) && refs.dealing
      modifies refs`dealing, FirstLabel(refs.sprites)`alpha
      ensures Valid() && (tween != null ==> fresh(tween))
      ensures this.refs == refs && cards == refs.sprites && this.targets == targets && index == 0 && clock == now
      ensures failed <==> |cards| > 0 && |targets| == 0
      ensures refs.dealing <==> |cards| > 0
      ensures |refs.sprites| > 0 && |targets| > 0 ==> refs.sprites[0].lbl.alpha == 0.0
      ensures forall k :: 0 <= k < |refs.sprites| && !(k == 0 && |targets| > 0) ==> unchanged(refs.sprites[k].lbl)
    {
      this.refs := refs;
      cards := refs.sprites;
      this.targets := targets;
      index := 0;
      clock := now;
      new;
      failed := false;
      tween := null;
      if |cards| == 0 {
        refs.dealing := false;
      } else if |targets| == 0 {
        failed := true;
      } else {
        tween := StartTween(cards[0], targets[0], now);
      }
    }

    /** `tweenCardToTarget(entity, target, { ms: 650, ... })`: the tween captures the
      * start pose and `onBegin` hides the card's label. */
    static method StartTween(e: Entity, target: Target, now: real) returns (tw: CardTween.CardTween)
      requires e.lbl != null
      modifies e.lbl`alpha
      ensures fresh(tw) && tw.Valid() && !tw.done && tw.updates == [] && tw.body == e.body && tw.target == target
      ensures tw.ease.None? && tw.ms == 650.0 && tw.start == now
      ensures e.lbl.alpha == 0.0 && e.lbl.x == old(e.lbl.x) && e.lbl.y == old(e.lbl.y)
      ensures e.lbl.rotation == old(e.lbl.rotation)
    {
      tw := new CardTween.CardTween(e, target, CardTween.TweenOptions(Some(650.0), None), now);
      e.lbl.alpha := 0.0;
    }

    /** `onUpdate(e, t)`: the label follows the body, unrotated, and fades in. */
    static method LabelOnUpdate(e: Entity, t: real)
      requires e.lbl != null
      modifies e.lbl
      ensures e.lbl.x == e.body.x && e.lbl.y == LabelY(e.body.y, e.frontHeight) && e.lbl.rotation == 0.0
      ensures e.lbl.alpha == LabelAlphaOnUpdate(old(e.lbl.alpha), t)
    {
      var l := e.lbl;
      l.x := e.body.x;
      l.y := LabelY(e.body.y, e.frontHeight);
      l.rotation := 0.0;
      if t >= 0.15 && l.alpha < 1.0 {
        l.alpha := MinR(1.0, (t - 0.15) / 0.2);
      }
    }

    /** `onComplete(e)`: the label is fully shown and snapped under the body. */
    static method LabelOnComplete(e: Entity)
      requires e.lbl != null
      modifies e.lbl
      ensures e.lbl.x == e.body.x && e.lbl.y == LabelY(e.body.y, e.frontHeight)
      ensures e.lbl.alpha == 1.0 && e.lbl.rotation == old(e.lbl.rotation)
    {
      e.lbl.alpha := 1.0;
      e.lbl.x := e.body.x;
      e.lbl.y := LabelY(e.body.y, e.frontHeight);
    }

    /** One frame of a card's tween at time `now`, with its callbacks: the body moves,
      * `onUpdate` moves and fades the label, and at progress 1 the body is pinned and
      * `onComplete` shows the label fully. */
    static method Frame(e: Entity, tw: CardTween.CardTween, clock: real, now: real) returns (t: real)
      requires e.lbl != null && tw.Valid() && !tw.done && tw.body == e.body && tw.ease.None? && tw.ms == 650.0
      requires tw.start <= clock <= now
      requires |tw.updates| == 0 ==> e.lbl.alpha == 0.0
      requires |tw.updates| > 0 ==>
        e.lbl.alpha == FadeCurve(tw.updates[|tw.updates| - 1]) &&
        tw.updates[|tw.updates| - 1] <= Progress(clock, tw.start, tw.ms)
      modifies tw, e.body, e.lbl
      ensures tw.Valid() && t == Progress(now, tw.start, 650.0)
      ensures tw.done <==> now - tw.start >= 650.0
      ensures |tw.updates| > 0 && tw.updates[|tw.updates| - 1] == t
      ensures !tw.done ==> e.lbl.alpha == FadeCurve(t)
      ensures tw.done ==> Settled(e, tw.target)
    {
      ghost var last := if |tw.updates| == 0 then 0.0 else tw.updates[|tw.updates| - 1];
      ProgressMonotone(clock, now, tw.start, tw.ms);
      t := tw.Step(now);
      LabelOnUpdate(e, t);
      LabelFollowsFadeCurve(last, t);
      if tw.done {
        LabelOnComplete(e);
      }
    }

    /** One animation frame at time `now` for the running tween. When the tween completes,
      * the next card's tween starts in the same turn, or, after the last card, the final
      * label pass runs and `dealing` is cleared. */
    method Step(now: real)
      requires Valid() && index < |cards| && !failed && now >= clock
      modifies this`index, this`tween, this`failed, this`clock, tween, cards[index].body, LabelsOf(cards), refs`dealing
      ensures Valid() && clock == now
      ensures index == old(index) || index == old(index) + 1
      ensures index == old(index) + 1 <==> now - old(tween.start) >= 650.0
      ensures index == old(index) ==> cards[index].lbl.alpha == FadeCurve(Progress(now, tween.start, 650.0))
    {
      var e := cards[index];
      var tw := tween;
      assert e.body !in (set k | 0 <= k < index && k < |cards| :: cards[k].body);
      assert e.lbl !in (set k | 0 <= k < index && k < |cards| :: cards[k].lbl);
      var t := Frame(e, tw, clock, now);
      clock := now;
      if tw.done {
        Advance(now);
      }
    }

    /** The running card has settled; everything else is as `Valid` says. */
    ghost predicate Finished()
      reads this, refs, cards, BodiesOf(cards), LabelsOf(cards)
    {
      refs.sprites == cards && OwnParts(cards) && index < |cards| && index < |targets| && refs.dealing &&
      !failed && SettledUpTo(cards, targets, index) && Settled(cards[index], targets[index])
    }

    /** What follows a completed tween in the same turn: the next card's tween starts, or
      * the source throws for a card without a target, or after the last card the final
      * label pass runs and `dealing` is cleared. */
    method Advance(now: real)
      requires Finished() && clock == now
      modifies this`index, this`tween, this`failed, LabelsOf(cards), refs`dealing
      ensures Valid() && clock == now && index == old(index) + 1
    {
      SettledExtend(cards, targets, index);
      index := index + 1;
      if index == |cards| {
        tween := null;
        FinalLabels();
      } else if index >= |targets| {
        tween := null;
        failed := true;
      } else {
        tween := StartTween(cards[index], targets[index], now);
      }
    }

    /** After the last card: the final label pass, then `setDealing(false)`. */
    method FinalLabels()
      requires refs.sprites == cards && OwnParts(cards) && index == |cards| && SettledUpTo(cards, targets, index)
      modifies LabelsOf(cards), refs`dealing
      ensures SettledUpTo(cards, targets, index) && !refs.dealing
    {
      PlaceLabels(cards);
      forall k | 0 <= k < |cards|
        ensures k < |targets| && Settled(cards[k], targets[k])
      {
        assert old(k < |targets| && Settled(cards[k], targets[k]));
        assert unchanged(cards[k], cards[k].body);
      }
      refs.dealing := false;
    }
  }

  /** The pass after the tween loop: every label is placed under its card's body,
    * unrotated and fully shown. */
  method PlaceLabels(cards: seq<Entity>)
    requires OwnParts(cards)
    modifies LabelsOf(cards)
    ensures forall k :: 0 <= k < |cards| ==>
      cards[k].lbl.x == cards[k].body.x && cards[k].lbl.y == LabelY(cards[k].body.y, cards[k].frontHeight) &&
      cards[k].lbl.rotation == 0.0 && cards[k].lbl.alpha == 1.0
  {
    var i := 0;
    while i < |cards|
      invariant 0 <= i <= |cards|
      invariant forall k :: 0 <= k < i ==>
        cards[k].lbl.x == cards[k].body.x && cards[k].lbl.y == LabelY(cards[k].body.y, cards[k].frontHeight) &&
        cards[k].lbl.rotation == 0.0 && cards[k].lbl.alpha == 1.0
    {
      var l := cards[i].lbl;
      l.x := cards[i].body.x;
      l.y := LabelY(cards[i].body.y, cards[i].frontHeight);
      l.rotation := 0.0;
      l.alpha := 1.0;
      i := i + 1;
    }
  }

  /** The targets of the deal: the horoscope grid for the spread with id exactly
    * "horoscope-12", the slots' percentages otherwise, then the profile's layout overrides
    * with a row gap of 5 percent of the height. */
  function DealTargets(spread: Spread, screen: Size, profile: Profiles.ProfileId): (r: seq<Target>)
    ensures |r| == if spread.id == "horoscope-12" then 12 else |spread.slots|
    ensures spread.id == "horoscope-12" ==> forall i :: 0 <= i < |r| ==>
      r[i].x == HoroscopeLayout.HoroscopeGrid(screen)[i].x && r[i].angle == Some(0.0)
    ensures spread.id != "horoscope-12" ==> forall i :: 0 <= i < |r| ==>
      r[i].x == spread.slots[i].xPerc / 100.0 * screen.width && r[i].angle == Some(spread.slots[i].angle.GetOr(0.0))
    ensures !(profile == Profiles.Tablet && |spread.slots| == 5) ==>
      r == if spread.id == "horoscope-12" then HoroscopeLayout.HoroscopeGrid(screen)
           else PercentTargets(spread.slots, screen.width, screen.height)
  {
    var base := if spread.id == "horoscope-12" then HoroscopeLayout.HoroscopeGrid(screen)
                else PercentTargets(spread.slots, screen.width, screen.height);
    LayoutOverrides.ApplyLayoutOverrides(profile, |spread.slots|, base, screen.height, 0.05)
  }

  /** How a call of the deal ends: returned at the guard for a missing application or
    * engine, returned at the guard for an empty catalog, stopped by a rejected asset load,
    * stopped by the exception for a slot without an assignment, or with the tween loop
    * started. */
  datatype DealStatus = Skipped | NoCards | LoadFailed | AssignmentMissing | Started

  /** The teardown before the new deal: `setDealing(true)`, no card zoomed, every old
    * sprite cleaned up, and an empty sprite list. */
  method Teardown(refs: CanvasRefs)
    requires refs.QueueValid()
    modifies refs`dealing, refs`currentZoomed, refs`pending, refs`hoverAnim, refs`world, refs`sprites,
             refs.sprites`masked, refs.sprites`destroyed
    ensures refs.QueueValid() && refs.dealing && refs.currentZoomed == null && refs.sprites == []
    ensures refs.pending == old(refs.pending) - PhysicsUtils.CleanupHandles(old(refs.sprites), old(refs.hoverAnim))
    ensures refs.hoverAnim == old(refs.hoverAnim) - set e | e in old(refs.sprites)
    ensures refs.world == old(refs.world) - PhysicsUtils.SpriteBodies(old(refs.sprites))
    ensures forall e :: e in old(refs.sprites) ==> !e.masked && e.destroyed
  {
    refs.dealing := true;
    refs.currentZoomed := null;
    PhysicsUtils.CleanupSprites(refs, refs.sprites);
    refs.sprites := [];
  }

  /** `dealToSpread` up to the start of the tween loop. The asset load is the outcome
    * `loadOk`; the seed string and the random stream it selects are parameters. With the
    * guards passed, the old cards are torn down before the load, the assignments pair slot
    * `i` with pick `i`, and, after a successful load, one card per slot is created at the
    * spawn point and the tween loop starts towards the deal's targets. */
  method DealToSpread(refs: CanvasRefs, hasEngine: bool, catalog: seq<string>, rng: CardPicking.SeededRng,
                      seedStr: string, spread: Spread, profileRef: Option<Profiles.ProfileId>, loadOk: bool, now: real)
    returns (status: DealStatus, assignments: seq<CardAssignment>, run: DealRun?)
    requires refs.QueueValid() && CardPicking.UnitStream(rng(seedStr))
    modifies refs`dealing, refs`currentZoomed, refs`pending, refs`hoverAnim, refs`world, refs`sprites, refs`baseCardScale,
             refs.sprites`masked, refs.sprites`destroyed
    ensures status == Skipped <==> !refs.hasApp || !hasEngine
    ensures status == NoCards <==> refs.hasApp && hasEngine && |catalog| == 0
    ensures status == LoadFailed <==> CanDeal(refs.hasApp, hasEngine, catalog) && !loadOk
    ensures status == AssignmentMissing <==> CanDeal(refs.hasApp, hasEngine, catalog) && loadOk && |catalog| < |spread.slots|
    ensures status == Started <==> CanDeal(refs.hasApp, hasEngine, catalog) && loadOk && |catalog| >= |spread.slots|
    ensures !CanDeal(refs.hasApp, hasEngine, catalog) ==> unchanged(refs) && unchanged(refs.sprites) && run == null
    ensures CanDeal(refs.hasApp, hasEngine, catalog) ==>
      refs.QueueValid() && refs.currentZoomed == null &&
      refs.pending == old(refs.pending) - PhysicsUtils.CleanupHandles(old(refs.sprites), old(refs.hoverAnim)) &&
      refs.hoverAnim == old(refs.hoverAnim) - (set e | e in old(refs.sprites)) &&
      (forall e :: e in old(refs.sprites) ==> !e.masked && e.destroyed) &&
      assignments == AssignmentsFor(spread.slots, CardPicking.Picks(catalog, rng(seedStr), |spread.slots|))
    ensures status == LoadFailed ==>
      refs.dealing && refs.sprites == [] && refs.world == old(refs.world) - PhysicsUtils.SpriteBodies(old(refs.sprites))
    ensures status == AssignmentMissing ==> refs.dealing && |refs.sprites| == |assignments|
    ensures status == Started ==>
      run != null && fresh(run) && run.Valid() && run.refs == refs && run.cards == refs.sprites &&
      run.index == 0 && run.clock == now && |refs.sprites| == |spread.slots| &&
      run.targets == DealTargets(spread, refs.screen, profileRef.GetOr(Profiles.PickProfile(refs.screen.width).id)) &&
      refs.world == old(refs.world) - PhysicsUtils.SpriteBodies(old(refs.sprites)) + BodiesOf(refs.sprites)
  {
    run := null;
    assignments := [];
    if !refs.hasApp || !hasEngine {
      return Skipped, assignments, run;
    }
    if |catalog| == 0 {
      return NoCards, assignments, run;
    }
    Teardown(refs);
    var picks := CardPicking.PickCardsDeterministic(rng, seedStr, catalog, |spread.slots|);
    assignments := AssignmentsFor(spread.slots, picks);
    if !loadOk {
      return LoadFailed, assignments, run;
    }
    var profile := profileRef.GetOr(Profiles.PickProfile(refs.screen.width).id);
    run := CreateAndStart(refs, spread, assignments, profile, now);
    status := if run == null then AssignmentMissing else Started;
  }

  /** The cards are created and, when every slot got one, the tween loop starts;
    * `null` stands for the exception thrown at the first slot without an assignment. */
  method CreateAndStart(refs: CanvasRefs, spread: Spread, assignments: seq<CardAssignment>,
                        profile: Profiles.ProfileId, now: real)
    returns (run: DealRun?)
    requires refs.sprites == [] && refs.dealing
    modifies refs`world, refs`sprites, refs`baseCardScale, refs`dealing
    ensures run == null <==> |assignments| < |spread.slots|
    ensures refs.world == old(refs.world) + BodiesOf(refs.sprites)
    ensures run == null ==> refs.dealing && |refs.sprites| == |assignments|
    ensures run != null ==>
      fresh(run) && run.Valid() && run.refs == refs && run.cards == refs.sprites &&
      run.index == 0 && run.clock == now && |refs.sprites| == |spread.slots| &&
      run.targets == DealTargets(spread, refs.screen, profile)
  {
    var complete, targets := CreateAll(refs, spread, assignments, profile);
    if !complete {
      return null;
    }
    run := new DealRun(refs, targets, now);
  }

  /** After the load: the cards are created at the spawn point, one per slot as long as
    * there are assignments (`complete` is false for the exception thrown at the first
    * slot without one), and the deal's targets are computed. */
  method CreateAll(refs: CanvasRefs, spread: Spread, assignments: seq<CardAssignment>, profile: Profiles.ProfileId)
    returns (complete: bool, targets: seq<Target>)
    requires refs.sprites == []
    modifies refs`world, refs`sprites, refs`baseCardScale
    ensures complete <==> |assignments| >= |spread.slots|
    ensures |refs.sprites| == if complete then |spread.slots| else |assignments|
    ensures OwnParts(refs.sprites) && refs.world == old(refs.world) + BodiesOf(refs.sprites)
    ensures forall k :: 0 <= k < |refs.sprites| ==>
      fresh(refs.sprites[k]) && fresh(refs.sprites[k].body) && fresh(refs.sprites[k].lbl) && refs.sprites[k].lbl.alpha == 0.0
    ensures CardsAsDealt(refs.sprites, spread.slots, assignments,
                         DealSpawn.ComputeSpawnPoint(refs.screen.width, refs.screen.height, DefaultCardH, 0.9),
                         ResponsiveSizing.PreScaleFor(refs.screen.width, Profiles.ProfileOf(profile).baseWidthRel, DefaultCardW))
    ensures complete ==> targets == DealTargets(spread, refs.screen, profile)
  {
    var spawn := DealSpawn.ComputeSpawnPoint(refs.screen.width, refs.screen.height, DefaultCardH, 0.9);
    complete := CreateCards(refs, spread.slots, assignments, spawn, profile);
    targets := [];
    if complete {
      targets := ComputeTargets(spread, refs.screen, profile);
    }
  }

  /** Card `k` of the list was made from assignment `k` as `NewView` says, and its label
    * shows the slot's text. */
  ghost predicate CardsAsDealt(cards: seq<Entity>, slots: seq<SpreadSlot>, assignments: seq<CardAssignment>,
                               spawn: DealSpawn.Point, preScale: real)
    reads cards, BodiesOf(cards)
  {
    |cards| <= |assignments| &&
    forall k :: 0 <= k < |cards| ==>
      NewView(cards[k], assignments[k], k, spawn, preScale) && cards[k].lbl.text == LabelText(slots, assignments[k].slotKey)
  }

  /** The target selection as the deal runs it, with the grid walk for the horoscope. */
  method ComputeTargets(spread: Spread, screen: Size, profile: Profiles.ProfileId) returns (targets: seq<Target>)
    ensures targets == DealTargets(spread, screen, profile)
  {
    if spread.id == "horoscope-12" {
      targets := HoroscopeLayout.ComputeHoroscopeTargets(screen);
    } else {
      targets := PercentTargets(spread.slots, screen.width, screen.height);
    }
    targets := LayoutOverrides.ApplyLayoutOverrides(profile, |spread.slots|, targets, screen.height, 0.05);
  }

  /** `repositionLabels`: every card that has a label gets it back under its body, 20
    * pixels above the card's bottom edge, unrotated; alphas are left alone and cards
    * without a label are skipped. */
  method RepositionLabels(sprites: seq<Entity>)
    requires forall i, j :: 0 <= i < j < |sprites| && sprites[i].lbl != null ==> sprites[i].lbl != sprites[j].lbl
    modifies LabelsOf(sprites)
    ensures forall k :: 0 <= k < |sprites| && sprites[k].lbl != null ==>
      sprites[k].lbl.x == sprites[k].body.x && sprites[k].lbl.y == LabelY(sprites[k].body.y, sprites[k].frontHeight) &&
      sprites[k].lbl.rotation == 0.0 && sprites[k].lbl.alpha == old(sprites[k].lbl.alpha)
  {
    if |sprites| == 0 {
      return;
    }
    var i := 0;
    while i < |sprites|
      invariant 0 <= i <= |sprites|
      invariant forall k :: 0 <= k < i && sprites[k].lbl != null ==>
        sprites[k].lbl.x == sprites[k].body.x && sprites[k].lbl.y == LabelY(sprites[k].body.y, sprites[k].frontHeight) &&
        sprites[k].lbl.rotation == 0.0
      invariant forall l :: l in LabelsOf(sprites) ==> l.alpha == old(l.alpha)
    {
      var l := sprites[i].lbl;
      if l != null {
        l.x := sprites[i].body.x;
        l.y := LabelY(sprites[i].body.y, sprites[i].frontHeight);
        l.rotation := 0.0;
      }
      i := i + 1;
    }
  }
}
