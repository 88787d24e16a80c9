/** Responsive card sizing: the pre-scale a new card gets for the active profile, the
  * base scale measured from a card's current bounds, and the pass that reapplies a base
  * scale to every card (view and physics body together) unless a card is zoomed. */
module ResponsiveSizing {
  import opened Common
  import Profiles
  import opened Scene

  /** `screen.width * baseWidthRel / max(1, defaultCardW)`: the scale at which a card
    * drawn `defaultCardW` wide takes up the profile's share of the screen width. */
  function PreScaleFor(screenWidth: real, baseWidthRel: real, defaultCardW: real): real
  {
    screenWidth * baseWidthRel / MaxR(1.0, defaultCardW)
  }

  /** The pre-scale is applied only when it differs from the current scale (zero read
    * as 1) by more than 1e-3. */
  predicate PreScaleMoves(scaleX: real, preScale: real)
  {
    AbsR(Or1(scaleX) - preScale) > 0.001
  }

  /** The base scale is applied unless it is within 0.001 of the current scale (zero
    * read as 1); a difference of exactly 0.001 is applied, unlike the pre-scale's test. */
  predicate BaseScaleMoves(scaleX: real, newScale: real)
  {
    !(AbsR(Or1(scaleX) - newScale) < 0.001)
  }

  /** A view's scale after a rescale to `target` that moves when `moves` holds. */
  function ScaleAfter(scaleX: real, target: real, moves: bool): real
  {
    if moves then target else scaleX
  }

  /** A body's size factor after the same rescale: `Body.scale` by `target / cur`. */
  function SizeAfter(size: real, scaleX: real, target: real, moves: bool): real
  {
    if moves then size * (target / Or1(scaleX)) else size
  }

  /** The bodies of a list of entities. */
  function BodiesOf(sprites: seq<Entity>): set<Body>
  {
    set e | e in sprites :: e.body
  }

  /** `computeBaseScaleForEntityWithProfile`: the current scale (zero read as 1) times the
    * ratio between the target width and the card's bounds width (clamped below by 1). */
  function ComputeBaseScale(screenWidth: real, baseWidthRel: real, view: Profiles.ViewMetrics): real
  {
    Or1(view.scaleX) * (screenWidth * baseWidthRel / MaxR(1.0, view.boundsWidth))
  }

  /** A card drawn `defaultCardW` wide (at least 1) and pre-scaled is exactly the
    * profile's share of the screen wide. */
  lemma PreScaleReachesTargetWidth(screenWidth: real, baseWidthRel: real, defaultCardW: real)
    requires defaultCardW >= 1.0
    ensures PreScaleFor(screenWidth, baseWidthRel, defaultCardW) * defaultCardW == screenWidth * baseWidthRel
  {
    assert MaxR(1.0, defaultCardW) == defaultCardW;
  }

  /** No drift: when the bounds are the front width times a positive scale (and at least
    * 1 wide), the base scale is the target width over the front width whatever the
    * current scale is, so measuring again after applying it gives the same scale. */
  lemma BaseScaleNoDrift(screenWidth: real, baseWidthRel: real, frontWidth: real, frontHeight: real, s: real)
    requires s > 0.0 && frontWidth * s >= 1.0
    ensures ComputeBaseScale(screenWidth, baseWidthRel, ViewMetricsOf(frontWidth, frontHeight, s, s))
         == screenWidth * baseWidthRel / frontWidth
  {
    var target := screenWidth * baseWidthRel;
    var view := ViewMetricsOf(frontWidth, frontHeight, s, s);
    assert view.boundsWidth == frontWidth * s;
    assert MaxR(1.0, view.boundsWidth) == frontWidth * s;
    assert frontWidth > 0.0;
    calc {
      ComputeBaseScale(screenWidth, baseWidthRel, view);
      s * (target / (frontWidth * s));
      { assert s * (target / (frontWidth * s)) * (frontWidth * s) == s * target; }
      target / frontWidth;
    }
  }

  /** A body that had the view's scale still has it after a rescale: `Body.scale` by the
    * same ratio keeps the physics size in step with the view. */
  lemma BodyFollowsView(size: real, scaleX: real, target: real, moves: bool)
    requires scaleX != 0.0 && size == scaleX
    ensures SizeAfter(size, scaleX, target, moves) == ScaleAfter(scaleX, target, moves)
  {
    if moves {
      assert size * (target / scaleX) == target;
    }
  }

  /** Reapplying the same base scale changes nothing: the second pass finds every view
    * at the scale (or within the tolerance) and leaves view and body alone, or, for a
    * target of 0, scales them to 0 again. */
  lemma BaseScaleIdempotent(scaleX: real, size: real, target: real)
    ensures var m1 := BaseScaleMoves(scaleX, target);
      var s1 := ScaleAfter(scaleX, target, m1);
      var z1 := SizeAfter(size, scaleX, target, m1);
      var m2 := BaseScaleMoves(s1, target);
      ScaleAfter(s1, target, m2) == s1 && SizeAfter(z1, s1, target, m2) == z1
  {
    var m1 := BaseScaleMoves(scaleX, target);
    if m1 && target == 0.0 {
      assert SizeAfter(size, scaleX, target, m1) == 0.0;
    } else if m1 {
      assert !BaseScaleMoves(target, target);
    }
  }

  /** `preScaleEntityForProfile`: returns the pre-scale for the profile, and sets the
    * view's scale to it (scaling the body by the same ratio) only when it moves. */
  method PreScaleEntityForProfile(screen: Size, entity: Entity, profile: Profiles.Profile, defaultCardW: real)
    returns (preScale: real)
    modifies entity`scaleX, entity`scaleY, entity.body`sizeFactor
    ensures preScale == PreScaleFor(screen.width, profile.baseWidthRel, defaultCardW)
    ensures var moves := PreScaleMoves(old(entity.scaleX), preScale);
      entity.scaleX == ScaleAfter(old(entity.scaleX), preScale, moves) &&
      entity.scaleY == ScaleAfter(old(entity.scaleY), preScale, moves) &&
      entity.body.sizeFactor == SizeAfter(old(entity.body.sizeFactor), old(entity.scaleX), preScale, moves)
  {
    var targetWidth := screen.width * profile.baseWidthRel;
    preScale := targetWidth / MaxR(1.0, defaultCardW);
    var cur := Or1(entity.scaleX);
    if AbsR(cur - preScale) > 0.001 {
      entity.scaleX, entity.scaleY := preScale, preScale;
      var ratio := preScale / cur;
      entity.body.sizeFactor := entity.body.sizeFactor * ratio;
    }
  }

  /** The sprites list holds distinct entities, each with a body of its own (the deal
    * creates one body per entity). */
  ghost predicate DistinctSprites(sprites: seq<Entity>)
  {
    forall i, j :: 0 <= i < j < |sprites| ==> sprites[i] != sprites[j] && sprites[i].body != sprites[j].body
  }

  /** `applyBaseScaleToCards` skips everything when there are no cards or a card is
    * zoomed. */
  ghost predicate ApplySkips(refs: CanvasRefs)
    reads refs
  {
    |refs.sprites| == 0 || refs.currentZoomed != null
  }

  /** One card of the pass: rescale the view and body to `newScale` unless it is within
    * the tolerance already. */
  method RescaleCard(e: Entity, newScale: real)
    modifies e`scaleX, e`scaleY, e.body`sizeFactor
    ensures var moves := BaseScaleMoves(old(e.scaleX), newScale);
      e.scaleX == ScaleAfter(old(e.scaleX), newScale, moves) &&
      e.scaleY == ScaleAfter(old(e.scaleY), newScale, moves) &&
      e.body.sizeFactor == SizeAfter(old(e.body.sizeFactor), old(e.scaleX), newScale, moves)
  {
    var curScale := Or1(e.scaleX);
    if AbsR(curScale - newScale) < 0.001 {
      return;
    }
    var ratio := newScale / curScale;
    e.scaleX, e.scaleY := newScale, newScale;
    e.body.sizeFactor := e.body.sizeFactor * ratio;
  }

  /** `applyBaseScaleToCards(newScale)`: with no cards or a zoomed card nothing changes,
    * not even the base scale; otherwise every card is rescaled (view and body by the same
    * ratio) and the base scale becomes `newScale`. */
  method ApplyBaseScaleToCards(refs: CanvasRefs, newScale: real)
    requires DistinctSprites(refs.sprites)
    modifies refs`baseCardScale, refs.sprites`scaleX, refs.sprites`scaleY, BodiesOf(refs.sprites)`sizeFactor
    ensures ApplySkips(refs) ==> refs.baseCardScale == old(refs.baseCardScale)
    ensures !ApplySkips(refs) ==> refs.baseCardScale == newScale
    ensures forall k :: 0 <= k < |refs.sprites| ==>
      var e := refs.sprites[k];
      var moves := !ApplySkips(refs) && BaseScaleMoves(old(e.scaleX), newScale);
      e.scaleX == ScaleAfter(old(e.scaleX), newScale, moves) &&
      e.scaleY == ScaleAfter(old(e.scaleY), newScale, moves) &&
      e.body.sizeFactor == SizeAfter(old(e.body.sizeFactor), old(e.scaleX), newScale, moves)
  {
    if |refs.sprites| == 0 || refs.currentZoomed != null {
      return;
    }
    var i := 0;
    while i < |refs.sprites|
      invariant 0 <= i <= |refs.sprites|
      invariant forall k :: 0 <= k < i ==>
        var e := refs.sprites[k];
        var moves := BaseScaleMoves(old(e.scaleX), newScale);
        e.scaleX == ScaleAfter(old(e.scaleX), newScale, moves) &&
        e.scaleY == ScaleAfter(old(e.scaleY), newScale, moves) &&
        e.body.sizeFactor == SizeAfter(old(e.body.sizeFactor), old(e.scaleX), newScale, moves)
      invariant forall k :: i <= k < |refs.sprites| ==>
        var e := refs.sprites[k];
        e.scaleX == old(e.scaleX) && e.scaleY == old(e.scaleY) && e.body.sizeFactor == old(e.body.sizeFactor)
    {
      RescaleCard(refs.sprites[i], newScale);
      i := i + 1;
    }
    refs.baseCardScale := newScale;
  }

  /** `recomputeAndApplyBaseScaleWithProfile`: without the application or without cards
    * nothing changes; otherwise the base scale measured from the first card is applied to
    * every card. */
  method RecomputeAndApplyBaseScale(refs: CanvasRefs, profile: Profiles.Profile)
    requires DistinctSprites(refs.sprites)
    modifies refs`baseCardScale, refs.sprites`scaleX, refs.sprites`scaleY, BodiesOf(refs.sprites)`sizeFactor
    ensures !refs.hasApp || ApplySkips(refs) ==> refs.baseCardScale == old(refs.baseCardScale)
    ensures forall k :: 0 <= k < |refs.sprites| ==>
      var first := old(refs.sprites[0]);
      var scale := ComputeBaseScale(refs.screen.width, profile.baseWidthRel,
                                    ViewMetricsOf(first.frontWidth, first.frontHeight, old(first.scaleX), old(first.scaleY)));
      var e := refs.sprites[k];
      var moves := refs.hasApp && !ApplySkips(refs) && BaseScaleMoves(old(e.scaleX), scale);
      e.scaleX == ScaleAfter(old(e.scaleX), scale, moves) &&
      e.scaleY == ScaleAfter(old(e.scaleY), scale, moves) &&
      e.body.sizeFactor == SizeAfter(old(e.body.sizeFactor), old(e.scaleX), scale, moves)
    ensures refs.hasApp && !ApplySkips(refs) ==>
      var first := old(refs.sprites[0]);
      refs.baseCardScale == ComputeBaseScale(refs.screen.width, profile.baseWidthRel,
                              ViewMetricsOf(first.frontWidth, first.frontHeight, old(first.scaleX), old(first.scaleY)))
  {
    if !refs.hasApp || |refs.sprites| == 0 {
      return;
    }
    var first := refs.sprites[0];
    var scale := ComputeBaseScale(refs.screen.width, profile.baseWidthRel,
                                  ViewMetricsOf(first.frontWidth, first.frontHeight, first.scaleX, first.scaleY));
    ApplyBaseScaleToCards(refs, scale);
  }
}
