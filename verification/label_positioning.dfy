/** `LabelPositioning`: where a card's slot label goes, to the right of the card for the
  * side-label spreads on mobile and below it everywhere else, and the pass that places the
  * label of every card. */
module LabelPositioning {
  import opened Common
  import opened Scene
  import DealSpawn
  import Canvas

  /** The spreads whose labels go beside the cards on mobile. */
  predicate ShouldUseSideLabels(spreadId: Option<string>, isMobile: bool)
  {
    isMobile && (spreadId == Some("ppf") || spreadId == Some("pphao") || spreadId == Some("gsbbl"))
  }

  /** Where a label goes for a view at (x, y) with `scale.x` equal to `scale` (0 read as 1)
    * and a front sprite `frontWidth` by `frontHeight`: beside the card, `spacing` right of
    * its right edge and level with its centre; or below it, `spacing + 10` under its
    * bottom edge and level with its centre line. */
  function LabelSpot(x: real, y: real, scale: real, frontWidth: real, frontHeight: real,
                     side: bool, spacing: real): DealSpawn.Point
  {
    var s := Or1(scale);
    if side then DealSpawn.Point(x + frontWidth * s / 2.0 + spacing, y + 0.0)
    else DealSpawn.Point(x, y + frontHeight * s / 2.0 + spacing + 10.0)
  }

  /** The card's rectangle at a uniform positive scale, centred on its view. */
  function CardRect(x: real, y: real, s: real, frontWidth: real, frontHeight: real): Canvas.Rect
  {
    Canvas.Rect(x - frontWidth * s / 2.0, y - frontHeight * s / 2.0, frontWidth * s, frontHeight * s)
  }

  /** With a positive spacing and a positive uniform scale, a label never sits on its own
    * card: its anchor is outside the card's rectangle, right of it beside the card, below
    * it under the card, and in line with the card's centre on the other axis. */
  lemma LabelOutsideCard(x: real, y: real, s: real, frontWidth: real, frontHeight: real, side: bool, spacing: real)
    requires s > 0.0 && frontWidth >= 0.0 && frontHeight >= 0.0 && spacing > 0.0
    ensures var p := LabelSpot(x, y, s, frontWidth, frontHeight, side, spacing);
      var r := CardRect(x, y, s, frontWidth, frontHeight);
      !Canvas.ClosedContains(r, p.x, p.y) &&
      (side ==> p.x > r.x + r.width && p.y == y) &&
      (!side ==> p.y > r.y + r.height && p.x == x)
  {
    var p := LabelSpot(x, y, s, frontWidth, frontHeight, side, spacing);
    var r := CardRect(x, y, s, frontWidth, frontHeight);
    assert r.x + r.width == x + frontWidth * s / 2.0;
    assert r.y + r.height == y + frontHeight * s / 2.0;
  }

  /** A zero scale is read as 1: the label goes where it would for an unscaled card. */
  lemma ZeroScaleReadAsOne(x: real, y: real, frontWidth: real, frontHeight: real, side: bool, spacing: real)
    ensures LabelSpot(x, y, 0.0, frontWidth, frontHeight, side, spacing) ==
            LabelSpot(x, y, 1.0, frontWidth, frontHeight, side, spacing)
  {
  }

  /** The label of a card, as a set (empty when the card has none). */
  function LabelOf(e: Entity): set<Label>
    reads e
  {
    if e.lbl != null then {e.lbl} else {}
  }

  /** The labels of a list of cards. */
  function LabelsOf(entities: seq<Entity>): set<Label>
    reads entities
  {
    set e | e in entities && e.lbl != null :: e.lbl
  }

  /** `positionLabel(entity, spreadId, isMobile, spacing = 5)`: a card without a label is
    * left alone; otherwise its label goes to the side or bottom spot of the card's view
    * and is unrotated. */
  method PositionLabel(e: Entity, spreadId: Option<string>, isMobile: bool, spacing: real)
    modifies LabelOf(e)`x, LabelOf(e)`y, LabelOf(e)`rotation
    ensures e.lbl != null ==>
      var p := LabelSpot(e.x, e.y, e.scaleX, e.frontWidth, e.frontHeight, ShouldUseSideLabels(spreadId, isMobile), spacing);
      e.lbl.x == p.x && e.lbl.y == p.y && e.lbl.rotation == 0.0
  {
    var lbl := e.lbl;
    if lbl == null {
      return;
    }
    var x := e.x;
    var y := e.y;
    var scale := if e.scaleX != 0.0 then e.scaleX else 1.0;
    var needsSideLabels := isMobile && (spreadId == Some("ppf") || spreadId == Some("pphao") || spreadId == Some("gsbbl"));
    if needsSideLabels {
      var actualCardWidth := e.frontWidth * scale;
      lbl.x := x + actualCardWidth / 2.0 + spacing;
      lbl.y := y + 0.0;
    } else {
      var actualCardHeight := e.frontHeight * scale;
      lbl.x := x;
      lbl.y := y + actualCardHeight / 2.0 + spacing + 10.0;
    }
    lbl.rotation := 0.0;
  }

  /** `positionAllLabels(entities, spreadId, isMobile, spacing = 5, verticalOffset = 0)`:
    * every card's label is placed by `positionLabel`; `verticalOffset` plays no part.
    * Each card owns its label. */
  method PositionAllLabels(entities: seq<Entity>, spreadId: Option<string>, isMobile: bool,
                           spacing: real, verticalOffset: real)
    requires forall i, j :: 0 <= i < j < |entities| && entities[i].lbl != null ==> entities[i].lbl != entities[j].lbl
    modifies LabelsOf(entities)`x, LabelsOf(entities)`y, LabelsOf(entities)`rotation
    ensures forall k :: 0 <= k < |entities| && entities[k].lbl != null ==>
      var e := entities[k];
      var p := LabelSpot(e.x, e.y, e.scaleX, e.frontWidth, e.frontHeight, ShouldUseSideLabels(spreadId, isMobile), spacing);
      e.lbl.x == p.x && e.lbl.y == p.y && e.lbl.rotation == 0.0
  {
    var i := 0;
    while i < |entities|
      invariant 0 <= i <= |entities|
      invariant forall k :: 0 <= k < i && entities[k].lbl != null ==>
        var e := entities[k];
        var p := LabelSpot(e.x, e.y, e.scaleX, e.frontWidth, e.frontHeight, ShouldUseSideLabels(spreadId, isMobile), spacing);
        e.lbl.x == p.x && e.lbl.y == p.y && e.lbl.rotation == 0.0
    {
      PositionLabel(entities[i], spreadId, isMobile, spacing);
      i := i + 1;
    }
  }
}
