/** Responsive interface profiles (mobile, tablet, desktop): their configuration
  * records, the zoom-fit arithmetic they delegate to, and the ordered scan that
  * picks one for a screen width. */
module Profiles {
  import opened Common

  datatype ProfileId = Mobile | Tablet | Desktop

  /** Profile classes ordered by the screen widths they serve. */
  function Rank(id: ProfileId): nat
  {
    match id
    case Mobile => 0
    case Tablet => 1
    case Desktop => 2
  }

  /** The three shapes of `matches(w)` the profiles use, kept as data. */
  datatype WidthRule =
    | AtMost(hi: real)                 // w <= hi
    | AboveAtMost(lo: real, hi: real)  // w > lo && w <= hi
    | Above(lo: real)                  // w > lo

  predicate Matches(rule: WidthRule, w: real)
  {
    match rule
    case AtMost(hi) => w <= hi
    case AboveAtMost(lo, hi) => w > lo && w <= hi
    case Above(lo) => w > lo
  }

  /** What `fitScaleToScreen` reads from a container: its world bounds and `scale.x`. */
  datatype ViewMetrics = ViewMetrics(boundsWidth: real, boundsHeight: real, scaleX: real)

  /** The record handed to `makeProfile`. */
  datatype ProfileConfig = ProfileConfig(
    id: ProfileId,
    baseWidthRel: real,
    zoomPadding: real,
    zoomOverscale: Option<real>,
    matches: WidthRule)

  /** `TarotInterfaceProfile`: the configuration plus the bound `computeZoomScale`
    * (its `app` argument reduced to the screen size). */
  datatype Profile = Profile(
    id: ProfileId,
    baseWidthRel: real,
    zoomPadding: real,
    zoomOverscale: Option<real>,
    matches: WidthRule,
    computeZoomScale: (Size, ViewMetrics) -> real)

  /** The fit factor `k`: the smaller of the width and height ratios between the padded
    * screen and the bounds, each bound clamped below by 1. */
  function FitFactor(screen: Size, view: ViewMetrics, pad: real): real
  {
    MinR((screen.width - pad * 2.0) / MaxR(1.0, view.boundsWidth),
         (screen.height - pad * 2.0) / MaxR(1.0, view.boundsHeight))
  }

  /** The fit factor is the largest uniform factor that brings the clamped bounds inside
    * the screen shrunk by `pad` on every side: it fits both ways and is tight in one. */
  lemma FitFactorIsTightFit(screen: Size, view: ViewMetrics, pad: real)
    ensures FitFactor(screen, view, pad) * MaxR(1.0, view.boundsWidth) <= screen.width - pad * 2.0
    ensures FitFactor(screen, view, pad) * MaxR(1.0, view.boundsHeight) <= screen.height - pad * 2.0
    ensures FitFactor(screen, view, pad) * MaxR(1.0, view.boundsWidth) == screen.width - pad * 2.0
         || FitFactor(screen, view, pad) * MaxR(1.0, view.boundsHeight) == screen.height - pad * 2.0
  {
    var sw := screen.width - pad * 2.0;
    var sh := screen.height - pad * 2.0;
    var bw := MaxR(1.0, view.boundsWidth);
    var bh := MaxR(1.0, view.boundsHeight);
    var k := FitFactor(screen, view, pad);
    assert (sw / bw) * bw == sw && (sh / bh) * bh == sh;
    assert k <= sw / bw && k <= sh / bh;
    MulMonotone(k, sw / bw, bw);
    MulMonotone(k, sh / bh, bh);
  }

  lemma MulMonotone(a: real, b: real, c: real)
    requires a <= b && c > 0.0
    ensures a * c <= b * c
  {
    assert (b - a) * c >= 0.0;
  }

  /** The zoom scale chosen from the current absolute scale and the fit factor: the fitted
    * scale, but never less than 1.5 times the current scale. */
  function ZoomScale(current: real, k: real, overscale: real): real
  {
    MaxR(current * k * overscale, current * 1.5)
  }

  /** `fitScaleToScreen(app, container, pad = 24, overscale = 1)`: the absolute zoom scale. */
  function FitScaleToScreen(screen: Size, view: ViewMetrics, pad: real := 24.0, overscale: real := 1.0): real
  {
    ZoomScale(Or1(view.scaleX), FitFactor(screen, view, pad), overscale)
  }

  /** Zoom never shrinks the card: the result is at least 1.5 times the current scale
    * (a zero scale counting as 1), it is exactly the fitted scale whenever that already
    * reaches 1.5 times the current scale, and a zero scale behaves as a scale of 1. */
  lemma FitScaleNeverShrinks(screen: Size, view: ViewMetrics, pad: real, overscale: real)
    ensures FitScaleToScreen(screen, view, pad, overscale) >= 1.5 * Or1(view.scaleX)
    ensures var fitted := Or1(view.scaleX) * FitFactor(screen, view, pad) * overscale;
      fitted >= 1.5 * Or1(view.scaleX) ==> FitScaleToScreen(screen, view, pad, overscale) == fitted
    ensures FitScaleToScreen(screen, view, pad, overscale) ==
      FitScaleToScreen(screen, view.(scaleX := Or1(view.scaleX)), pad, overscale)
  {
    var cur := Or1(view.scaleX);
    var k := FitFactor(screen, view, pad);
    MaxRBounds(cur * k * overscale, cur * 1.5);
    assert FitScaleToScreen(screen, view, pad, overscale) == MaxR(cur * k * overscale, cur * 1.5);
    assert 1.5 * cur == cur * 1.5;
    var view1 := view.(scaleX := Or1(view.scaleX));
    assert Or1(view1.scaleX) == Or1(view.scaleX);
    assert FitFactor(screen, view1, pad) == FitFactor(screen, view, pad);
  }

  function MakeProfile(cfg: ProfileConfig): (p: Profile)
    ensures p.id == cfg.id && p.baseWidthRel == cfg.baseWidthRel && p.zoomPadding == cfg.zoomPadding
    ensures p.zoomOverscale == cfg.zoomOverscale && p.matches == cfg.matches
    ensures forall screen: Size, view: ViewMetrics :: (p.computeZoomScale(screen, view) ==
      FitScaleToScreen(screen, view, cfg.zoomPadding, cfg.zoomOverscale.GetOr(1.0)))
    ensures forall screen: Size, view: ViewMetrics ::
      p.computeZoomScale(screen, view) >= 1.5 * Or1(view.scaleX)
  {
    var overscale := cfg.zoomOverscale.GetOr(1.0);
    var zoom := (screen: Size, view: ViewMetrics) => FitScaleToScreen(screen, view, cfg.zoomPadding, overscale);
    assert forall screen: Size, view: ViewMetrics :: zoom(screen, view) >= 1.5 * Or1(view.scaleX) by {
      forall screen: Size, view: ViewMetrics ensures zoom(screen, view) >= 1.5 * Or1(view.scaleX) {
        FitScaleNeverShrinks(screen, view, cfg.zoomPadding, overscale);
      }
    }
    Profile(cfg.id, cfg.baseWidthRel, cfg.zoomPadding, cfg.zoomOverscale, cfg.matches, zoom)
  }

  const MobileProfile: Profile :=
    MakeProfile(ProfileConfig(Mobile, 0.20, 12.0, Some(1.2), AtMost(520.0)))

  const TabletProfile: Profile :=
    MakeProfile(ProfileConfig(Tablet, 0.13, 24.0, Some(1.0), AboveAtMost(520.0, 1180.0)))

  const DesktopProfile: Profile :=
    MakeProfile(ProfileConfig(Desktop, 0.18, 32.0, Some(1.0), Above(1180.0)))

  /** The three profiles' settings and width rules. */
  lemma ProfileSettings()
    ensures MobileProfile.baseWidthRel == 0.20 && MobileProfile.zoomPadding == 12.0 &&
            MobileProfile.zoomOverscale == Some(1.2)
    ensures TabletProfile.baseWidthRel == 0.13 && TabletProfile.zoomPadding == 24.0 &&
            TabletProfile.zoomOverscale == Some(1.0)
    ensures DesktopProfile.baseWidthRel == 0.18 && DesktopProfile.zoomPadding == 32.0 &&
            DesktopProfile.zoomOverscale == Some(1.0)
    ensures forall w :: Matches(MobileProfile.matches, w) <==> w <= 520.0
    ensures forall w :: Matches(TabletProfile.matches, w) <==> 520.0 < w <= 1180.0
    ensures forall w :: Matches(DesktopProfile.matches, w) <==> w > 1180.0
  {
  }

  /** The profile record of each class. */
  function ProfileOf(id: ProfileId): (p: Profile)
    ensures p.id == id
  {
    match id
    case Mobile => MobileProfile
    case Tablet => TabletProfile
    case Desktop => DesktopProfile
  }

  /** Every profile's zoom scale is at least 1.5 times the view's current scale. */
  lemma ProfileZoomNeverShrinks(id: ProfileId, screen: Size, view: ViewMetrics)
    ensures ProfileOf(id).computeZoomScale(screen, view) >= 1.5 * Or1(view.scaleX)
  {
  }

  /** The registry's scan order. */
  const AllProfiles: seq<Profile> := [MobileProfile, TabletProfile, DesktopProfile]

  /** Position of the first profile in `ps` whose `matches` holds for `w`. */
  function FirstMatch(ps: seq<Profile>, w: real): (r: Option<nat>)
    ensures r.Some? ==> r.value < |ps| && Matches(ps[r.value].matches, w)
    ensures r.Some? ==> forall i :: 0 <= i < r.value ==> !Matches(ps[i].matches, w)
    ensures r.None? ==> forall i :: 0 <= i < |ps| ==> !Matches(ps[i].matches, w)
  {
    if |ps| == 0 then None
    else if Matches(ps[0].matches, w) then Some(0)
    else match FirstMatch(ps[1..], w)
      case None => None
      case Some(i) => Some(i + 1)
  }

  /** `pickProfile(screenWidth)`: the first matching profile, desktop when none matches. */
  function PickProfile(screenWidth: real): Profile
  {
    match FirstMatch(AllProfiles, screenWidth)
    case Some(i) => AllProfiles[i]
    case None => DesktopProfile
  }

  /** The three width rules partition the number line: every width satisfies exactly one,
    * so the desktop fallback is never reached. */
  lemma ProfilesPartition(w: real)
    ensures FirstMatch(AllProfiles, w).Some?
    ensures forall i, j :: 0 <= i < j < |AllProfiles| ==>
      !(Matches(AllProfiles[i].matches, w) && Matches(AllProfiles[j].matches, w))
  {
    assert Matches(AllProfiles[0].matches, w) || Matches(AllProfiles[1].matches, w) || Matches(AllProfiles[2].matches, w);
  }

  /** Width at most 520 selects mobile, 520 < width <= 1180 tablet, above 1180 desktop. */
  lemma PickProfileBands(w: real)
    ensures PickProfile(w).id == Mobile <==> w <= 520.0
    ensures PickProfile(w).id == Tablet <==> 520.0 < w <= 1180.0
    ensures PickProfile(w).id == Desktop <==> w > 1180.0
  {
    if w <= 520.0 {
      assert FirstMatch(AllProfiles, w) == Some(0);
    } else if w <= 1180.0 {
      assert !Matches(AllProfiles[0].matches, w);
      assert FirstMatch(AllProfiles, w) == Some(1);
    } else {
      assert !Matches(AllProfiles[0].matches, w) && !Matches(AllProfiles[1].matches, w);
      assert FirstMatch(AllProfiles[2..], w) == Some(0);
      assert FirstMatch(AllProfiles[1..], w) == Some(1);
      assert FirstMatch(AllProfiles, w) == Some(2);
    }
  }

  /** A wider screen never selects a smaller profile class. */
  lemma PickProfileMonotone(w1: real, w2: real)
    requires w1 <= w2
    ensures Rank(PickProfile(w1).id) <= Rank(PickProfile(w2).id)
  {
    PickProfileBands(w1);
    PickProfileBands(w2);
  }
}
