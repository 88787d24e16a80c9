/** Profile-specific adjustments applied to spread targets after they are computed. */
module LayoutOverrides {
  import opened Common
  import Profiles

  function ClampR(lo: real, hi: real, v: real): real
  {
    MaxR(lo, MinR(hi, v))
  }

  /** The margin kept from the top and bottom edges: `max(8, 0.04 H)`. */
  function EdgePad(H: real): real
  {
    MaxR(8.0, H * 0.04)
  }

  /** `applyLayoutOverrides(profile, spread, targets, app, rowGapVH = 0.05)`: on tablet, a
    * five-slot spread has its top row (indices 0 to 2) moved up and the rest moved down by
    * `H * rowGapVH`, each y clamped to the padded canvas; every other case returns the
    * targets untouched. */
  function ApplyLayoutOverrides(profile: Profiles.ProfileId, slotCount: nat, targets: seq<Target>,
                                H: real, rowGapVH: real := 0.05): (r: seq<Target>)
    ensures |r| == |targets|
    ensures forall i :: 0 <= i < |r| ==> r[i].x == targets[i].x && r[i].angle == targets[i].angle
    ensures !(profile == Profiles.Tablet && slotCount == 5) ==> r == targets
  {
    if profile == Profiles.Tablet && slotCount == 5 then
      var gap := H * rowGapVH;
      var pad := EdgePad(H);
      seq(|targets|, i requires 0 <= i < |targets| =>
        var y := if i <= 2 then targets[i].y - gap else targets[i].y + gap;
        targets[i].(y := ClampR(pad, H - pad, y)))
    else targets
  }

  /** On the tablet five-slot override every y stays at least `pad` from the top, and at
    * least `pad` from the bottom whenever the canvas is tall enough to hold both margins
    * (for H below 16 the two margins overlap and the top one wins). */
  lemma OverridesStayInCanvas(slotCount: nat, targets: seq<Target>, H: real, rowGapVH: real, i: nat)
    requires slotCount == 5 && i < |targets|
    ensures ApplyLayoutOverrides(Profiles.Tablet, slotCount, targets, H, rowGapVH)[i].y >= EdgePad(H)
    ensures H >= 16.0 ==> ApplyLayoutOverrides(Profiles.Tablet, slotCount, targets, H, rowGapVH)[i].y <= H - EdgePad(H)
  {
    var r := ApplyLayoutOverrides(Profiles.Tablet, slotCount, targets, H, rowGapVH);
    var gap := H * rowGapVH;
    var y := if i <= 2 then targets[i].y - gap else targets[i].y + gap;
    assert r[i].y == ClampR(EdgePad(H), H - EdgePad(H), y);
    if H >= 16.0 {
      assert H * 0.04 <= H - H * 0.04;
    }
  }

  /** Where the clamp does not bite, the top row (indices 0 to 2) moves up and the other
    * rows move down by exactly `H * rowGapVH`. */
  lemma OverridesShiftRows(slotCount: nat, targets: seq<Target>, H: real, rowGapVH: real, i: nat)
    requires slotCount == 5 && i < |targets|
    ensures var shifted := if i <= 2 then targets[i].y - H * rowGapVH else targets[i].y + H * rowGapVH;
      EdgePad(H) <= shifted <= H - EdgePad(H) ==>
      ApplyLayoutOverrides(Profiles.Tablet, slotCount, targets, H, rowGapVH)[i].y == shifted
  {
  }
}
