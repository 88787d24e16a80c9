# Tarot reading app: a verified model of its core

This project models the core of a Next.js tarot-reading app in Dafny. The app has a spread picker, a deck of 62 cards and an interactive table drawn with PIXI over a Matter.js physics world. The model covers these parts:

- **Spreads, questions and intentions.** This covers the spread catalog, the intention categories and `${name}` substitution in intention labels. It includes the horoscope wheel starting at the zodiac season of the day, the "this or that" questions whose paths depend on the user's picks, flattening a spread's intentions into one list, and the intention store with the text it resolves to (`Spreads`, `LegacySpreads`, `AppQuestion`, `LibQuestion`, `FlattenIntentions`, `IntentionStore`, `ResolvedIntention`).
- **Cards and stores.** This covers the numbered card catalog, its image paths, and the two tarot stores: the spread on the table, the card assigned to each slot, the user's texts, the colorway and the deal flag (`Cards`, `TarotStore`, `LegacyTarotStore`).
- **Layout.** This covers the layout constants, the responsive profiles and the zoom-fit arithmetic. It also covers the horoscope grid, the profile layout overrides, card sizing, label placement, the spawn point and the background path (`Constants`, `Profiles`, `ResponsiveSizing`, `HoroscopeLayout`, `LayoutOverrides`, `LabelPositioning`, `DealSpawn`, `Background`).
- **Dealing.** This covers the seeded card assignment (a Fisher–Yates shuffle on an array, then one reversal draw per pick) and the easing curves. It includes the card tween run frame by frame, the deal of a new reading with its guards, teardown, creation and tweening, and the frame sync of each card view with its body (`CardPicking`, `Easing`, `CardTween`, `Deal`, `PhysicsUtils`, `PixiSetup`, `Canvas`, `LegacyCanvas`).
- **Interactions.** This covers the card click handlers of both canvases: flip, zoom in, zoom out and focus. It also covers hiding and showing the other cards and the label layer. Every animation is a callback queued on a modelled `requestAnimationFrame` queue, and the handler classes keep these invariants: every queued zoom step is under its card's recorded handle, and the set of flipping cards is exactly the set of cards with a queued flip step (`Scene`, `Frames`, `Fades`, `Interactions`, `LegacyInteractions`). The handler classes follow the corrected code of both rows under "## Findings": a zoom step records each new frame handle, and the older `hideOtherCards` skips an already hidden card instead of returning. The source as written breaks the zoom-handle invariant after one frame, as `Frames.StaleHandleAfterOneFrame` shows, and the as-written members are kept beside the corrected ones.

Code that mutates objects becomes classes with `modifies` frames. These are the scene's entities and bodies, the shared canvas refs, the interaction handlers, the deal run and the stores. Pure helpers become functions, and loops become methods proved against those functions. Floating-point values are modelled as reals.

The copies of `pickCardsDeterministic` and `computeHoroscopeTargets` inside both `TarotCanvas.tsx` files are the same code as `utils/cardPicking.ts` and `layouts/horoscope.ts`, so each is modelled once. The older spread helpers in `src/lib/tarot/spreads.ts` reuse the definitions of `Spreads` for all but their horoscope spread.

`PIXI.Assets.load` (`src/app/components/tarot/animations/dealToSpread.ts:226`) is not guarded by `try`/`catch`. A rejected load therefore leaves `dealing`, set at line 192, true, and the model does the same (`loadOk` false).

## Model

| member | source | states |
|---|---|---|
| Background.BgPath | src/app/components/tarot/utils/background.ts:1-5 | the path always lies under `/cards/canvas/` |
| Background.BgPathCases | src/app/components/tarot/utils/background.ts:2-4 | exactly four images: `Desktop` when `w >= h` and `Mobile` otherwise, `Pink` for the pink colorway and `Grey` otherwise |
| Background.BgPathInjective | src/app/components/tarot/utils/background.ts:2-4 | two requests share an image only when their colorways agree and both renderers are landscape (or both portrait) |
| Constants.WindowsShape | src/app/components/tarot/constants.ts:4-19 | five windows for five-card spreads and three for three-card spreads; every window is 14 by 26 percent and lies inside the canvas |
| Constants.WindowCenterTarget | src/app/components/tarot/constants.ts:21-25 | the target has angle 0 and sits midway between the window's left and right pixel edges, and between its top and bottom edges |
| Constants.WindowCenterInside | src/app/components/tarot/constants.ts:21-25 | for a window of positive size, the centre lies strictly inside the window's pixel rectangle |
| Constants.ZoomScaleTarget | src/app/components/tarot/constants.ts:27-32 | the scale is 2, 2.5 or 3; it is 2 exactly below 560 px and 3 exactly from 1024 px |
| Constants.ZoomScaleTargetMonotone | src/app/components/tarot/constants.ts:27-32 | a wider viewport never gets a smaller zoom scale |
| Constants.ConstantsBgPath | src/app/components/tarot/constants.ts:35-39 | the copy of `bgPath` here picks `Desktop` exactly when `w >= h` and `Pink` exactly for the pink colorway |
| DealSpawn.ComputeSpawnPoint | src/app/components/tarot/interfaces/deal.spawn.ts:11-21 | x is half the renderer width; y lies `defaultCardH * yFactor` below the bottom edge |
| DealSpawn.SpawnBelowCanvas | src/app/components/tarot/interfaces/deal.spawn.ts:14-19 | for positive inputs the spawn point is below the canvas; with the default factor it is 0.8 card heights below |
| Profiles.FitFactorIsTightFit | src/app/components/tarot/interfaces/types.ts:30-33 | the fit factor brings the clamped bounds inside the padded screen both ways, and fills it exactly in one of them |
| Profiles.FitScaleNeverShrinks | src/app/components/tarot/interfaces/types.ts:24-41 | the result is at least 1.5 times the current scale (0 read as 1); it equals the fitted scale whenever that reaches 1.5 times; a zero scale behaves as 1 |
| Profiles.MakeProfile | src/app/components/tarot/interfaces/profile.util.ts:5-23 | the id, base width, padding, overscale and width rule are copied; `computeZoomScale` is `fitScaleToScreen` with the profile's padding and overscale (1 when absent); it is never below 1.5 times the current scale |
| Profiles.ProfileSettings | src/app/components/tarot/interfaces/profile.mobile.ts:3-9 | mobile: base width 0.20, padding 12, overscale 1.2, width at most 520; tablet (profile.tablet.ts:3-9): 0.13, 24, 1.0, width in (520, 1180]; desktop (profile.desktop.ts:3-9): 0.18, 32, 1.0, width above 1180 |
| Profiles.ProfileOf | src/app/components/tarot/interfaces/profile.registry.ts:6 | each profile class has its own record |
| Profiles.ProfileZoomNeverShrinks | src/app/components/tarot/interfaces/profile.util.ts:14-21 | every profile's zoom scale is at least 1.5 times the view's current scale |
| Profiles.FirstMatch | src/app/components/tarot/interfaces/profile.registry.ts:9 | the position found is the first whose rule matches; no match means no rule matches |
| Profiles.ProfilesPartition | src/app/components/tarot/interfaces/profile.registry.ts:6-10 | every width matches exactly one profile, so the desktop fallback is never reached |
| Profiles.PickProfileBands | src/app/components/tarot/interfaces/profile.registry.ts:8-11 | mobile exactly for width at most 520, tablet exactly for 520 < width <= 1180, desktop exactly above 1180 |
| Profiles.PickProfileMonotone | src/app/components/tarot/interfaces/profile.registry.ts:8-11 | a wider screen never selects a smaller profile class |
| Profiles.PickProfile | src/app/components/tarot/interfaces/profile.registry.ts:8-11 | `pickProfile`: the first profile of the registry whose rule matches the width, desktop when none does; its bands are proved in `PickProfileBands`, its monotonicity in `PickProfileMonotone`, the first-match scan in `FirstMatch` |
| Profiles.FitFactor | src/app/components/tarot/interfaces/types.ts:30-33 | the fit factor `min(sw / max(1, w), sh / max(1, h))` of the padded screen over the clamped bounds; `FitFactorIsTightFit` proves it fits both ways and is tight in one |
| Profiles.ZoomScale | src/app/components/tarot/interfaces/types.ts:34-40 | the fitted absolute scale raised to at least 1.5 times the current scale; characterised by `FitScaleNeverShrinks` |
| Profiles.FitScaleToScreen | src/app/components/tarot/interfaces/types.ts:24-41 | `fitScaleToScreen` with `scale.x || 1`, pad 24 and overscale 1 by default; `FitScaleNeverShrinks` and `ProfileZoomNeverShrinks` state its bounds |
| ResponsiveSizing.PreScaleReachesTargetWidth | src/app/components/tarot/interfaces/ResponsiveSizing.ts:14-15 | a card drawn `defaultCardW` wide (at least 1) and pre-scaled is exactly `screen.width * baseWidthRel` wide |
| ResponsiveSizing.BaseScaleNoDrift | src/app/components/tarot/interfaces/ResponsiveSizing.ts:29-41 | when the bounds are the front width times the current scale, the base scale is the target width over the front width whatever the current scale, so measuring again after applying it yields the same scale |
| ResponsiveSizing.BodyFollowsView | src/app/components/tarot/interfaces/ResponsiveSizing.ts:55-59 | scaling the body by `newScale / curScale` keeps a body whose size matched the view in step with the view |
| ResponsiveSizing.BaseScaleIdempotent | src/app/components/tarot/interfaces/ResponsiveSizing.ts:53-60 | applying the same base scale twice changes view and body no more than applying it once |
| ResponsiveSizing.PreScaleEntityForProfile | src/app/components/tarot/interfaces/ResponsiveSizing.ts:8-27 | returns `screen.width * baseWidthRel / max(1, defaultCardW)`; the view takes that scale, and the body the same ratio, only when it differs from the current scale (zero read as 1) by more than 0.001 |
| ResponsiveSizing.RescaleCard | src/app/components/tarot/interfaces/ResponsiveSizing.ts:54-59 | a card within 0.001 of the new scale is untouched; any other card gets the new scale on both axes and its body is scaled by the same ratio |
| ResponsiveSizing.ApplyBaseScaleToCards | src/app/components/tarot/interfaces/ResponsiveSizing.ts:43-62 | with no cards or a zoomed card nothing changes, the base scale included; otherwise every card is rescaled as above and the base scale becomes `newScale` |
| ResponsiveSizing.RecomputeAndApplyBaseScale | src/app/components/tarot/interfaces/ResponsiveSizing.ts:64-77 | without the application or without cards nothing changes; otherwise the scale measured on the first card is applied to every card and becomes the base scale |
| ResponsiveSizing.PreScaleFor | src/app/components/tarot/interfaces/ResponsiveSizing.ts:14-15 | the pre-scale `screen.width * baseWidthRel / max(1, defaultCardW)`; `PreScaleReachesTargetWidth` proves it makes the card the profile's share of the screen wide |
| ResponsiveSizing.ComputeBaseScale | src/app/components/tarot/interfaces/ResponsiveSizing.ts:29-41 | `computeBaseScaleForEntityWithProfile`: the current scale (0 read as 1) times target width over clamped bounds width; `BaseScaleNoDrift` proves it does not depend on the current scale when the bounds track it |
| LayoutOverrides.ApplyLayoutOverrides | src/app/components/tarot/interfaces/layout.overrides.ts:13-39 | one target per input target with x and angle kept; anything but the tablet five-slot case returns the targets unchanged |
| LayoutOverrides.OverridesStayInCanvas | src/app/components/tarot/interfaces/layout.overrides.ts:22-34 | on the tablet five-slot override every y is at least `max(8, 0.04 H)` from the top, and as far from the bottom whenever the canvas is 16 px or taller |
| LayoutOverrides.OverridesShiftRows | src/app/components/tarot/interfaces/layout.overrides.ts:26-34 | where the clamp does not bite, targets 0 to 2 move up and the others move down by exactly `H * rowGapVH` |
| LayoutOverrides.EdgePad | src/app/components/tarot/interfaces/layout.overrides.ts:23 | the margin `max(8, 0.04 H)` kept from the top and bottom; `OverridesStayInCanvas` proves the overridden rows respect it |
| HoroscopeLayout.HoroscopeGrid | src/app/components/tarot/layouts/horoscope.ts:11-38 | the grid holds exactly twelve targets |
| HoroscopeLayout.GridHoldsTwelve | src/app/components/tarot/layouts/horoscope.ts:15-17 | both grids, 6 by 2 from 768 px and 3 by 4 below, hold exactly twelve cells |
| HoroscopeLayout.RowMajorIndex | src/app/components/tarot/layouts/horoscope.ts:25-30 | the k-th target of the row-major walk is row `k / cols`, column `k % cols` |
| HoroscopeLayout.ComputeHoroscopeTargets | src/app/components/tarot/layouts/horoscope.ts:11-38 | the nested loops produce exactly the twelve grid targets in row-major order; the twelve-target break never fires early |
| HoroscopeLayout.GridTargetInside | src/app/components/tarot/layouts/horoscope.ts:19-34 | every target has angle 0 and lies strictly inside the 8 percent inset of the renderer |
| HoroscopeLayout.CellPercentInside | src/app/components/tarot/layouts/horoscope.ts:21-29 | each cell centre lies strictly between 8 and 92 percent |
| HoroscopeLayout.Cols | src/app/components/tarot/layouts/horoscope.ts:15-17 | six columns from a renderer width of 768 up, three below; `GridHoldsTwelve` proves both grids hold twelve cells |
| HoroscopeLayout.Rows | src/app/components/tarot/layouts/horoscope.ts:15-17 | two rows on the wide grid and four on the narrow one; `GridHoldsTwelve` relates it to `Cols` |
| HoroscopeLayout.CellPercent | src/app/components/tarot/layouts/horoscope.ts:21-29 | the cell centre `8 + (84 / n)(i + 0.5)` percent; `CellPercentInside` proves it lies strictly between 8 and 92 |
| HoroscopeLayout.GridTarget | src/app/components/tarot/layouts/horoscope.ts:19-34 | the pixel target of a grid cell with angle 0; `GridTargetInside` proves it lies inside the inset |
| Easing.ProgressBounds | src/app/components/tarot/animations/cardTween.ts:48 | progress `min(1, (now - start) / ms)` lies in [0, 1] from the start time on, and is 1 exactly when the whole duration has elapsed |
| Easing.ProgressMonotone | src/app/components/tarot/animations/cardTween.ts:48 | a later frame never has less progress |
| Easing.LerpEnds | src/app/components/tarot/animations/cardTween.ts:51-55 | interpolation gives the start at factor 0 and the target at factor 1, and a constant interpolation stays put |
| Easing.LerpBetween | src/app/components/tarot/animations/cardTween.ts:51-55 | for a factor in [0, 1] the interpolated value lies between start and target |
| Easing.EaseInOutQuadRange | src/app/components/tarot/animations/cardTween.ts:34-36 | the default curve maps [0, 1] into [0, 1], with 0 at 0 and 1 at 1 |
| Easing.EaseInOutQuadMonotone | src/app/components/tarot/animations/cardTween.ts:34-36 | the default curve is nondecreasing on [0, 1] |
| Easing.EaseOutCubicRange | src/app/components/tarot/utils/CardInteractions.ts:38-40 | `1 - (1 - t)^3` maps [0, 1] into [0, 1], with 0 at 0 and 1 at 1 |
| Easing.EaseOutCubicMonotone | src/app/components/tarot/utils/CardInteractions.ts:38-40 | `1 - (1 - t)^3` is nondecreasing on [0, 1] |
| Easing.EaseInOutQuad | src/app/components/tarot/animations/cardTween.ts:34-36 | the default curve `t < 0.5 ? 2t^2 : -1 + (4 - 2t) t`; `EaseInOutQuadRange` and `EaseInOutQuadMonotone` prove it maps [0, 1] onto itself, fixes the ends and never decreases |
| Easing.EaseOutCubic | src/app/components/tarot/utils/CardInteractions.ts:38-40 | the zoom and fade curve `1 - (1 - t)^3`; `EaseOutCubicRange` and `EaseOutCubicMonotone` prove range, fixed ends and monotonicity |
| Easing.Progress | src/app/components/tarot/animations/cardTween.ts:48 | the tween progress `min(1, (now - start) / ms)`; `ProgressBounds` and `ProgressMonotone` prove its range, when it reaches 1 and that it never decreases |
| Easing.Lerp | src/app/components/tarot/animations/cardTween.ts:51-55 | the interpolation `from + (to - from) k`; `LerpEnds` and `LerpBetween` prove its ends and that it stays between them |
| CardTween.CardTween.constructor | src/app/components/tarot/animations/cardTween.ts:29-45 | the duration defaults to 700 ms and the ease to easeInOutQuad; the start pose is the body's, the target angle defaults to the start angle, `onBegin` has fired once and no frame has run |
| CardTween.CardTween.Step | src/app/components/tarot/animations/cardTween.ts:47-68 | one frame puts the body at the eased point between start and target and reports the raw `t`; the tween finishes exactly when the duration has elapsed, and then the body is at rest, static and (with the default ease) exactly on the target, `onComplete` having fired once; without a target angle the angle never changes |
| CardTween.TweenFinishesAtDuration | src/app/components/tarot/animations/cardTween.ts:48-59 | progress reaches 1, ending the tween, exactly when `now >= start + ms` |
| CardTween.EaseOf | src/app/components/tarot/animations/cardTween.ts:34-36 | `opts.ease ?? easeInOutQuad` applied to the progress; the default case is the curve `Easing.EaseInOutQuadRange` characterises |
| LabelPositioning.LabelOutsideCard | src/app/components/tarot/utils/LabelPositioning.ts:30-40 | with a positive spacing and scale, a side label sits right of its card level with its centre, a bottom label below it in line with its centre, and neither on the card |
| LabelPositioning.ZeroScaleReadAsOne | src/app/components/tarot/utils/LabelPositioning.ts:24 | a view scale of 0 places the label as a scale of 1 does |
| LabelPositioning.PositionLabel | src/app/components/tarot/utils/LabelPositioning.ts:11-43 | a card without a label is left alone; otherwise the label goes beside the card exactly for the mobile side-label spreads `ppf`, `pphao` and `gsbbl`, below it otherwise, and its rotation becomes 0 |
| LabelPositioning.PositionAllLabels | src/app/components/tarot/utils/LabelPositioning.ts:48-58 | every labelled card's label ends where `positionLabel` puts it; `verticalOffset` has no effect |
| LabelPositioning.ShouldUseSideLabels | src/app/components/tarot/utils/LabelPositioning.ts:27-28 | side labels exactly on mobile for the spreads "ppf", "pphao" and "gsbbl"; `PositionLabel` proves the label goes beside the card exactly then |
| LabelPositioning.LabelSpot | src/app/components/tarot/utils/LabelPositioning.ts:24-40 | the label position beside or below the card, with scale 0 read as 1; `LabelOutsideCard` and `ZeroScaleReadAsOne` characterise it |
| PhysicsUtils.CreateDeckBody | src/components/tarot/PhysicsUtils.ts:8-13 | the deck body is new, static, not a sensor, at the given point and unrotated |
| PhysicsUtils.CleanupKeepsBookkeeping | src/components/tarot/PhysicsUtils.ts:49-52 | cancelling the listed sprites' handles removes every queued zoom of a listed sprite and no flip, and the remaining handles still name only zooms of their own cards |
| PhysicsUtils.CleanupSprites | src/components/tarot/PhysicsUtils.ts:44-58 | every listed sprite's handle is cancelled and its map entry dropped, its mask cleared, its view destroyed and its body removed from the world; the list and the entries of other cards are untouched |
| PhysicsUtils.CleanupStep | src/components/tarot/PhysicsUtils.ts:50-56 | one sprite's teardown: its handle cancelled, its entry dropped, its body out of the world, its view unmasked and destroyed |
| PixiSetup.CoverSpriteTo | src/app/components/tarot/PixiSetup.ts:59-67 | the sprite gets the cover scale `max(W / texW, H / texH)`, a zero texture side read as 1, and is centred on the renderer |
| PixiSetup.CoverCovers | src/app/components/tarot/PixiSetup.ts:62-66 | the scaled texture is at least as wide and as tall as the renderer, fits one side exactly, and its centred corner is at or above and left of the renderer's |
| PixiSetup.Gradient.constructor | src/app/components/tarot/PixiSetup.ts:97-108 | a new gradient starts invisible with its fade registered |
| PixiSetup.Gradient.FadeTick | src/app/components/tarot/PixiSetup.ts:104-107 | alpha grows by 0.06 but never past 1, and the fade unregisters itself exactly when alpha has reached 1 |
| PixiSetup.AlphaAfterStep | src/app/components/tarot/PixiSetup.ts:105 | one more tick takes the alpha after n ticks to the alpha after n + 1 |
| PixiSetup.FadeTakesSeventeenTicks | src/app/components/tarot/PixiSetup.ts:104-107 | from 0 the fade stays registered for exactly 17 ticks and then holds alpha at 1 |
| PixiSetup.DrawGradientBg | src/app/components/tarot/PixiSetup.ts:70-116 | the gradient in the ref is destroyed and replaced by a new, invisible gradient with its fade registered, which is returned |
| PixiSetup.NumberTween.constructor | src/app/components/tarot/PixiSetup.ts:131-146 | the tween starts now with nothing reported and its first frame requested |
| PixiSetup.NumberTween.Step | src/app/components/tarot/PixiSetup.ts:134-144 | each frame reports `from + (to - from) * easeInOutQuad(t)`; the tween ends exactly when the duration has elapsed, the last report being exactly `to` and `onDone` then having fired once; until then the next frame is requested |
| PixiSetup.NumberTween.Canceller | src/app/components/tarot/PixiSetup.ts:146-147 | the canceller cancels the frame that is currently requested |
| PixiSetup.TweenNumberBetween | src/app/components/tarot/PixiSetup.ts:135-138 | a reported value never overshoots: it lies between `from` and `to` |
| PixiSetup.CoverScale | src/app/components/tarot/PixiSetup.ts:62-64 | the cover scale `max(W / texW, H / texH)`, a zero texture side read as 1; `CoverCovers` proves the scaled texture covers the renderer and fits one side exactly |
| Deal.AssignmentsFor | src/app/components/tarot/animations/dealToSpread.ts:212-218 | one assignment per pick; assignment i pairs slot i's key with pick i's card and reversal |
| Deal.AssignmentsDistinctCards | src/app/components/tarot/animations/dealToSpread.ts:210-218 | no two assignments of a deal name the same card, and every card comes from the catalog |
| Deal.KeyLabel | src/app/components/tarot/animations/dealToSpread.ts:331 | the default label is as long as the slot key |
| Deal.KeyLabelShape | src/app/components/tarot/animations/dealToSpread.ts:331 | the default label has every dash turned into a space and no upper-case ASCII letter left; every other character stays where it was |
| Deal.FindSlot | src/app/components/tarot/animations/dealToSpread.ts:329 | finds the first slot with the key, and none exactly when no slot has it |
| Deal.LabelTextCases | src/app/components/tarot/animations/dealToSpread.ts:329-331 | a slot's label is its `cardLabel` when it has one and the default label of its key otherwise |
| Deal.PercentTargets | src/app/components/tarot/animations/dealToSpread.ts:366-370 | one target per slot, its angle the slot's angle or 0 |
| Deal.PercentTargetsInvert | src/app/components/tarot/animations/dealToSpread.ts:366-370 | on a canvas of positive size, each target converts back to exactly its slot's percentages |
| Deal.LabelFadeIn | src/app/components/tarot/animations/dealToSpread.ts:402-406 | the label fade keeps alpha in [0, 1], leaves it alone below progress 0.15 and has it fully shown from 0.35 |
| Deal.LabelFollowsFadeCurve | src/app/components/tarot/animations/dealToSpread.ts:391-406 | a label that starts hidden follows the curve `min(1, (t - 0.15) / 0.2)` (0 before 0.15), which never decreases, so the label never dims during its tween |
| Deal.CreateCard | src/app/components/tarot/animations/dealToSpread.ts:240-348 | a new card from its assignment: its body added to the world at the spawn point as a sensor, face-down with only the back visible, normal, clickable, stacked at `100 + 3 i`, masked, pre-scaled for the profile, with a hidden label carrying its text |
| Deal.AddCard | src/app/components/tarot/animations/dealToSpread.ts:312-325 | the new card is appended to the sprite list, and the first card's pre-scale becomes the base scale |
| Deal.CreateCards | src/app/components/tarot/animations/dealToSpread.ts:239-356 | one new face-down card per slot in slot order, each from assignment k with its slot's label text, all bodies added to the world; the loop stops where the assignments run out |
| Deal.DealRun.constructor | src/app/components/tarot/animations/dealToSpread.ts:384-392 | the tween loop starts with the first card's tween and its label hidden; with no cards `dealing` is cleared at once, and a first card without a target fails |
| Deal.DealRun.Step | src/app/components/tarot/animations/dealToSpread.ts:384-419 | one frame of the current card's 650 ms tween, its label following the fade curve; the loop moves to the next card exactly when 650 ms have passed, earlier cards staying settled at their targets |
| Deal.DealRun.Advance | src/app/components/tarot/animations/dealToSpread.ts:408-432 | after a card settles the next card's tween starts, a card without a target fails, and after the last card the final label pass runs and `dealing` is cleared |
| Deal.DealRun.FinalLabels | src/app/components/tarot/animations/dealToSpread.ts:421-432 | once every card has settled the labels are placed under their cards, fully shown, and `dealing` is cleared |
| Deal.PlaceLabels | src/app/components/tarot/animations/dealToSpread.ts:421-430 | every label goes to `(body.x, body.y + front.height / 2 - 20)`, unrotated and fully shown |
| Deal.DealTargets | src/app/components/tarot/animations/dealToSpread.ts:358-381 | `horoscope-12` takes the twelve grid targets and every other spread its slot percentages with angle defaulting to 0; the layout overrides apply to both |
| Deal.Teardown | src/app/components/tarot/animations/dealToSpread.ts:192-205 | `dealing` is set, no card is zoomed, every old card has its handle cancelled, its entry dropped, its view unmasked and destroyed and its body out of the world, and the sprite list is empty |
| Deal.DealToSpread | src/app/components/tarot/animations/dealToSpread.ts:137-433 | without app or engine, or with an empty catalog, nothing changes; otherwise the old cards are torn down before the load, the assignments pair slot i with pick i (picks drawn from the seed parameter `seedStr`, since the imported `getSeed` does not exist; see below), and after a successful load one card per slot is created and the tween loop starts on the selected targets; a failed load leaves `dealing` set |
| Deal.CreateAndStart | src/app/components/tarot/animations/dealToSpread.ts:239-392 | the cards are created and the tween loop starts on the deal's targets, unless an assignment is missing |
| Deal.CreateAll | src/app/components/tarot/animations/dealToSpread.ts:229-381 | every card created as dealt, from the shared spawn point with factor 0.9 and the profile's pre-scale, and, when all slots were filled, the deal's targets computed |
| Deal.ComputeTargets | src/app/components/tarot/animations/dealToSpread.ts:358-381 | the targets the deal computes are `DealTargets`, the grid coming from the loop of the horoscope layout |
| Deal.RepositionLabels | src/app/components/tarot/animations/dealToSpread.ts:439-454 | every labelled card's label goes to `(body.x, body.y + front.height / 2 - 20)` unrotated, its alpha untouched |
| Deal.CanDeal | src/app/components/tarot/animations/dealToSpread.ts:160-164 | the deal's guard: an application, an engine and a non-empty catalog; `DealToSpread` proves nothing changes when it fails, and `Canvas.CanvasGuardStricter` relates it to the canvas guard |
| Deal.LabelText | src/app/components/tarot/animations/dealToSpread.ts:329-331 | a card's label text: the first matching slot's `cardLabel`, else the key's default label; `LabelTextCases`, `KeyLabel` and `KeyLabelShape` characterise it |
| Deal.LabelY | src/app/components/tarot/animations/dealToSpread.ts:427 | a label sits at `y + front.height / 2 - 20`; `PlaceLabels` proves every label ends there |
| Deal.LabelAlphaOnUpdate | src/app/components/tarot/animations/dealToSpread.ts:402-406 | the per-frame label fade; `LabelFadeIn` proves its bounds and thresholds and `LabelFollowsFadeCurve` that a hidden label follows `FadeCurve` |
| Deal.FadeCurve | src/app/components/tarot/animations/dealToSpread.ts:402-406 | the label alpha as a function of progress, 0 before 0.15 and 1 from 0.35; `LabelFollowsFadeCurve` proves it never decreases |
| CardPicking.SwapIndex | src/app/components/tarot/utils/cardPicking.ts:21 | for a draw in [0, 1), the swap index `floor(r (i + 1))` lies in [0, i] |
| CardPicking.ShuffleFrom | src/app/components/tarot/utils/cardPicking.ts:20-23 | the rest of the shuffle from position i keeps the length of the list |
| CardPicking.SwapPermutes | src/app/components/tarot/utils/cardPicking.ts:22 | a swap keeps the same ids |
| CardPicking.ShuffleInPlace | src/app/components/tarot/utils/cardPicking.ts:17-23 | the descending loop of in-place swaps leaves the array holding exactly the specified shuffle of its old contents, using `length - 1` draws |
| CardPicking.PickCardsDeterministic | src/app/components/tarot/utils/cardPicking.ts:15-29 | returns exactly the specified picks: `min(n, catalog size)` of them, every id from the catalog, the catalog itself left as it was |
| CardPicking.PicksFromCatalog | src/app/components/tarot/utils/cardPicking.ts:25 | every picked id comes from the catalog |
| CardPicking.ShuffleIsPermutation | src/app/components/tarot/utils/cardPicking.ts:17-23 | the shuffle is a permutation of the catalog, and a catalog of at most one id is left as it is |
| CardPicking.ShuffleFromPermutes | src/app/components/tarot/utils/cardPicking.ts:20-23 | every suffix of the swap loop permutes the list |
| CardPicking.SwapKeepsDistinct | src/app/components/tarot/utils/cardPicking.ts:22 | a swap keeps ids pairwise distinct |
| CardPicking.ShuffleFromKeepsDistinct | src/app/components/tarot/utils/cardPicking.ts:20-23 | shuffling a list of distinct ids keeps them distinct |
| CardPicking.PicksDistinct | src/app/components/tarot/utils/cardPicking.ts:25 | over a catalog of distinct ids, no two picks share an id |
| CardPicking.PicksShape | src/app/components/tarot/utils/cardPicking.ts:20-28 | there are `min(n, catalog size)` picks; pick k is position k of the shuffle, and it is reversed exactly when draw `catalog size - 1 + k` is below 0.5, so the reversal draws follow all the shuffle draws |
| CardPicking.ShuffleFromUsesOnlyItsDraws | src/app/components/tarot/utils/cardPicking.ts:20-23 | the shuffle depends only on the first `length - 1` draws of the stream |
| CardPicking.PicksDeterministic | src/app/components/tarot/utils/cardPicking.ts:16-28 | two seeds whose streams agree on the draws the pick uses, and in particular the same seed, give identical picks |
| CardPicking.Swap | src/app/components/tarot/utils/cardPicking.ts:22 | the destructuring swap of positions i and j; `SwapPermutes` and `SwapKeepsDistinct` prove it keeps the multiset and distinctness |
| CardPicking.Shuffle | src/app/components/tarot/utils/cardPicking.ts:19-23 | the Fisher–Yates shuffle from `ids.length - 1` down to 1; `ShuffleInPlace` proves the array loop computes it and `ShuffleIsPermutation` that it is a permutation |
| CardPicking.Picks | src/app/components/tarot/utils/cardPicking.ts:25-28 | the first `n` shuffled ids, each reversed when its draw is below 0.5; `PicksShape`, `PicksFromCatalog`, `PicksDistinct` and `PicksDeterministic` characterise it |
| Canvas.SyncedMeaning | src/app/components/tarot/TarotCanvas.tsx:233-249 | each tick shows exactly one side, the face exactly when the card is face-up; the view takes the body position unless the card has an animation handle; the rotation is the body angle plus π when reversed; nothing else changes |
| Canvas.SyncedIdempotent | src/app/components/tarot/TarotCanvas.tsx:233-249 | a second tick over the same bodies and handle map changes nothing more |
| Canvas.SyncCard | src/app/components/tarot/TarotCanvas.tsx:235-247 | one card's view is synced with its body as specified, its position kept while it has a handle |
| Canvas.SyncFrame | src/app/components/tarot/TarotCanvas.tsx:233-249 | every listed card is synced with its body, the position skipped exactly for cards in the handle map |
| Canvas.CanvasGuardStricter | src/app/components/tarot/TarotCanvas.tsx:278-285 | the canvas's deal goes ahead exactly when the deal module's guard would, a deck body exists and no deal is running; missing application, engine or deck stops it first |
| Canvas.WindowTargets | src/app/components/tarot/TarotCanvas.tsx:359-361 | one target per window, each the window's centre target |
| Canvas.SelectTargetsShape | src/app/components/tarot/TarotCanvas.tsx:355-368 | twelve grid targets for `horoscope-12`, the window centres (angle 0) for five and three slots, and otherwise the slot percentages in pixels with angle defaulting to 0, one per slot |
| Canvas.SelectTargetsOnScreen | src/app/components/tarot/TarotCanvas.tsx:355-361 | on a screen of positive size every grid or window target lies strictly inside the screen, unrotated |
| Canvas.GridOnScreen | src/app/components/tarot/TarotCanvas.tsx:40-67 | every horoscope grid target lies strictly inside a screen of positive size, with angle 0 |
| Canvas.WindowOnScreen | src/app/components/tarot/constants.ts:21-25 | the centre of a window lying within the canvas percentages is strictly inside the screen |
| Canvas.TopmostFromSome | src/app/components/tarot/TarotCanvas.tsx:426-439 | the descending scan finds card k exactly when k takes the click and no card listed after it does |
| Canvas.TopmostFromNone | src/app/components/tarot/TarotCanvas.tsx:426-439 | the scan finds nothing exactly when no card takes the click |
| Canvas.HitTest | src/app/components/tarot/TarotCanvas.tsx:426-440 | the loop from the last card down returns the topmost card whose shown side is visible and whose bounds contain the point |
| Canvas.OnStagePointer | src/app/components/tarot/TarotCanvas.tsx:419-441 | a click the global handler takes reaches no card; otherwise at most one card gets it: the last-listed one whose shown side is visible and whose bounds contain the point, inclusive on every edge, or none when no card qualifies |
| Canvas.ViewRotation | src/app/components/tarot/TarotCanvas.tsx:242-243 | the view rotation: the body angle, plus π when the card is reversed; `SyncedMeaning` states it for every synced card |
| Canvas.Synced | src/app/components/tarot/TarotCanvas.tsx:233-249 | one tick of the sync loop on a card; `SyncedMeaning` and `SyncedIdempotent` state what it shows and that a second tick changes nothing |
| Canvas.CanvasDealGuard | src/app/components/tarot/TarotCanvas.tsx:278-285 | whether the canvas deal proceeds; `CanvasGuardStricter` proves it is the deal guard plus a deck body and no running deal |
| Canvas.SelectTargets | src/app/components/tarot/TarotCanvas.tsx:355-368 | the canvas's choice of targets; `SelectTargetsShape` and `SelectTargetsOnScreen` prove which layout is chosen and that grid and window targets are on screen |
| Canvas.TopmostFrom | src/app/components/tarot/TarotCanvas.tsx:426-439 | the descending scan for the card taking a click; `TopmostFromSome` and `TopmostFromNone` characterise both outcomes |
| Canvas.TopmostHit | src/app/components/tarot/TarotCanvas.tsx:426-440 | the topmost card taking a click; `HitTest` proves the loop computes it and `OnStagePointer` that only it receives the click |
| LegacyCanvas.LegacySyncFrame | src/components/tarot/TarotCanvas.tsx:117-129 | every card's sprites always follow the body's position, turn by the body angle plus π when reversed, and show exactly one side, the face exactly when face-up |
| LegacyCanvas.LegacyTargets | src/components/tarot/TarotCanvas.tsx:221-230 | one target per slot |
| LegacyCanvas.LegacyTargetsAreFannedPercents | src/components/tarot/TarotCanvas.tsx:223-230 | target i is slot i's percentages in pixels, turned by the fan offset `(i - n / 2) * 0.08` plus the slot's angle (0 when absent) |
| LegacyCanvas.FanShape | src/components/tarot/TarotCanvas.tsx:230 | the fan is centred: mirrored positions turn by opposite amounts, neighbours differ by 0.08, and the first half turns left |
| LegacyCanvas.LegacyTween.constructor | src/components/tarot/TarotCanvas.tsx:204-209 | the tween captures the body's start pose, the target angle defaulting to the start angle |
| LegacyCanvas.LegacyTween.Step | src/components/tarot/TarotCanvas.tsx:210-218 | each frame puts the body at the eased point; it resolves exactly when the duration has elapsed, then exactly on the target, and it never touches velocity or the static flag |
| LegacyCanvas.ClearPrevious | src/components/tarot/TarotCanvas.tsx:163-169 | every old card's sprites are destroyed, its body leaves the world, and the list is emptied |
| LegacyCanvas.MakeCard | src/components/tarot/TarotCanvas.tsx:187-202 | a new dynamic body at the deck is added to the world and a new face-down card showing only its back is appended to the list |
| LegacyCanvas.LegacyDealRun.constructor | src/components/tarot/TarotCanvas.tsx:225-232 | the loop starts with card 0 just made and its tween begun |
| LegacyCanvas.LegacyDealRun.Step | src/components/tarot/TarotCanvas.tsx:225-235 | a frame of the current tween; when it resolves the card is on its target and the next card is made at the deck and starts its tween, a missing assignment stops the loop with `dealing` still set, and after the last card `dealing` is cleared |
| LegacyCanvas.LegacyDealToSpread | src/components/tarot/TarotCanvas.tsx:158-236 | without application, engine or deck, or while dealing, nothing changes; otherwise the old cards are cleared, the assignments pair slot i with pick i, and the first card is made and tweened toward the fanned targets |
| LegacyCanvas.LegacyOnPointer | src/components/tarot/TarotCanvas.tsx:243-256 | exactly the topmost card whose shown side is visible and whose unrotated rectangle contains the point is turned over, and no other card (the fan rotation is left out, see below) |
| LegacyCanvas.FanOffset | src/components/tarot/TarotCanvas.tsx:230 | the fan offset `(i - n / 2) * 0.08`; `FanShape` proves the fan is centred with 0.08 steps |
| LegacyCanvas.LegacyCanDeal | src/components/tarot/TarotCanvas.tsx:159-160 | the older deal's guard: application, engine and deck body present and no deal running; `LegacyDealToSpread` proves nothing changes when it fails |
| Interactions.UniformScaleIsLarger | src/app/components/tarot/utils/CardInteractions.ts:155-159 | the scale a zoom starts from is one of the two view scales and never below `scale.x`; when they differ by more than 1e-4 it is the larger, otherwise `scale.x` is kept |
| Interactions.ZoomTarget | src/app/components/tarot/utils/CardInteractions.ts:165-179 | a zoom-in goes to the screen centre at the profile's zoom scale, at least 1.5 times the card's current scale; a zoom-out goes back to the base card scale at the body's position |
| Interactions.LayerFade | src/app/components/tarot/utils/CardInteractions.ts:88-105 | a label-layer fade is queued exactly when the application and the label layer exist and the layer's alpha is not already the target, and it runs from that alpha to the target |
| Interactions.StartZoomKeepsTracking | src/app/components/tarot/utils/CardInteractions.ts:150-192 | cancelling the card's previous handle and recording the new zoom step's handle keeps every queued zoom step under its card's handle, keeps the flipping set matched to the flip steps, and keeps handles safe and live |
| Interactions.StartFlipKeepsTracking | src/app/components/tarot/utils/CardInteractions.ts:214-223 | adding the card to the flipping set, cancelling and dropping its zoom handle and queuing one flip step keeps the bookkeeping, and no zoom step of that card is left in the queue |
| Interactions.FadesKeepBookkeeping | src/app/components/tarot/utils/CardInteractions.ts:71-105 | queuing the card fades and the layer fade keeps the zoom and flip bookkeeping and leaves every callback queued before them as it was |
| Interactions.ZoomQueued | src/app/components/tarot/utils/CardInteractions.ts:150-197 | after a zoom starts and the fades are queued, the new zoom step is its card's only zoom step, and of the earlier callbacks exactly that card's previous zoom step is gone |
| Interactions.DropHandleOf | src/app/components/tarot/utils/CardInteractions.ts:218-223 | a recorded non-zero handle of the card is cancelled and removed from the map; otherwise queue and map are unchanged |
| Interactions.StartFlip | src/app/components/tarot/utils/CardInteractions.ts:214-233 | the start of a flip (shared with the older handler, which flips around scale 1): the card joins the flipping set, its zoom is cancelled, its scale becomes the base in both axes and its zoom state normal, and exactly one flip step is queued under the next handle |
| Interactions.CardInteractions.constructor | src/app/components/tarot/utils/CardInteractions.ts:18-36 | the handlers read and write the canvas's shared refs |
| Interactions.CardInteractions.HandleCardClick | src/app/components/tarot/utils/CardInteractions.ts:42-67 | a click on a flipping card changes nothing; a face-down card starts a 260 ms flip and keeps the current card; a face-up card becomes the current zoomed card, or is released when it was the current one, and a previously zoomed card is zoomed out; at most one card is ever zoomed, with zoom steps under the corrected requeue of Findings row 1 |
| Interactions.CardInteractions.FocusCard | src/app/components/tarot/utils/CardInteractions.ts:51-66 | the face-up branches: the current card becomes this card, or none when it was this card, with the zoom states following |
| Interactions.CardInteractions.ZoomIn | src/app/components/tarot/utils/CardInteractions.ts:51-55 | with no card zoomed, the card zooms in, becomes current, and no other card's zoom state changes |
| Interactions.CardInteractions.ZoomOutCurrent | src/app/components/tarot/utils/CardInteractions.ts:204-211 | zooming the current card out leaves no card zoomed and the current card in the list |
| Interactions.CardInteractions.HideOtherCards | src/app/components/tarot/utils/CardInteractions.ts:69-106 | every card but the zoomed one stops taking pointer events; one fade to alpha 0 is queued per such card not already at 0, then the label-layer fade, each under the next handle, and earlier callbacks are kept |
| Interactions.CardInteractions.ShowAllCards | src/app/components/tarot/utils/CardInteractions.ts:108-144 | every card takes pointer events again; one fade to alpha 1 is queued per card not already at 1, then the label-layer fade, and earlier callbacks are kept |
| Interactions.CardInteractions.FadeCards | src/app/components/tarot/utils/CardInteractions.ts:71-143 | the fade loop of both handlers: event mode set on every card but the skipped one, the fades of the cards not at the target and the layer fade queued in list order |
| Interactions.CardInteractions.QueueLayerFade | src/app/components/tarot/utils/CardInteractions.ts:88-143 | the label-layer part of hiding and showing: the queue grows by exactly the layer fade, if any |
| Interactions.CardInteractions.ZoomToCard | src/app/components/tarot/utils/CardInteractions.ts:146-202 | without the application nothing changes; otherwise the scale is made uniform, the zoom state, z-index and handle map are set, the card's earlier zoom step is cancelled, one zoom step from the current pose to the zoom target is queued, and the other cards are hidden or all shown |
| Interactions.CardInteractions.Present | src/app/components/tarot/utils/CardInteractions.ts:194-201 | a zoomed-in card goes to z-index 999999 and the others are hidden; a zoomed-out card goes back to z-index 100 and every card is shown |
| Interactions.CardInteractions.StartZoom | src/app/components/tarot/utils/CardInteractions.ts:150-192 | the zoom step is queued under the next handle with the uniform start scale, the captured position and the zoom target, and that handle is recorded for the card |
| Interactions.CardInteractions.MakeUniform | src/app/components/tarot/utils/CardInteractions.ts:155-159 | both scales become the larger one when they differ by more than 1e-4, and are kept otherwise |
| Interactions.CardInteractions.FlipEntity | src/app/components/tarot/utils/CardInteractions.ts:213-256 | a card already flipping is left alone; otherwise it joins the flipping set, its zoom handle is cancelled and dropped, its scale is reset to the base card scale, its zoom state is normal, and one flip step is queued |
| Interactions.CardInteractions.Frame | src/app/components/tarot/utils/CardInteractions.ts:79-253 | running any queued callback removes it from the queue and keeps the bookkeeping, at most one zoomed card and the current card in the list; the zoom step is the corrected one of Findings row 1 (`Frames.RunZoomStep`), not the as-written `Frames.RunZoomStepAsWritten` |
| Interactions.CardInteractions.UnzoomCurrent | src/app/components/tarot/utils/CardInteractions.ts:204-211 | with the application and a current card, that card zooms out in 250 ms to z-index 100 and all cards take pointer events again; otherwise nothing changes |
| Interactions.UniformScale | src/app/components/tarot/utils/CardInteractions.ts:155-159 | the larger view scale when the two differ by more than 1e-4, `scale.x` otherwise; `UniformScaleIsLarger` characterises it |
| LegacyInteractions.LegacyZoomTarget | src/components/tarot/CardInteractions.ts:127-140 | the older zoom-in goes to scale 1.8 at the centre of the renderer; zoom-out goes to scale 1 at the body |
| LegacyInteractions.LegacyCardInteractions.constructor | src/components/tarot/CardInteractions.ts:14-26 | the older handlers read and write the same shared refs |
| LegacyInteractions.LegacyCardInteractions.HandleCardClick | src/components/tarot/CardInteractions.ts:28-51 | another zoomed current card is zoomed out first; then a face-down card flips (unless already flipping), a face-up normal card zooms in and becomes current, and a face-up zoomed card zooms out and the current card is cleared; hiding the other cards uses the corrected loop of Findings row 2 and zoom steps the corrected requeue of Findings row 1 |
| LegacyInteractions.LegacyCardInteractions.ReleaseOther | src/components/tarot/CardInteractions.ts:29-35 | a zoomed current card other than the clicked one is zoomed out and the current card cleared; otherwise queue, map and current card are unchanged; afterwards no card but the clicked one is zoomed |
| LegacyInteractions.LegacyCardInteractions.ZoomInCard | src/components/tarot/CardInteractions.ts:40-44 | the card zooms in with the others hidden and becomes the current card |
| LegacyInteractions.LegacyCardInteractions.ZoomOutCard | src/components/tarot/CardInteractions.ts:45-50 | the card zooms out, all cards are shown, and afterwards no card is zoomed and none is current |
| LegacyInteractions.LegacyCardInteractions.HandleGlobalClick | src/components/tarot/CardInteractions.ts:53-66 | the click is handled exactly when no deal runs and the current card is zoomed; then it is zoomed out and cleared; otherwise nothing changes |
| LegacyInteractions.LegacyCardInteractions.HideOtherCards | src/components/tarot/CardInteractions.ts:68-88 | one fade to alpha 0 per card other than the zoomed one that is not already at 0, with pointer events left alone (the corrected loop; see Findings) |
| LegacyInteractions.LegacyCardInteractions.ShowAllCards | src/components/tarot/CardInteractions.ts:90-108 | one fade to alpha 1 per card not already at 1, with no label layer and no event mode change |
| LegacyInteractions.LegacyCardInteractions.FadeCards | src/components/tarot/CardInteractions.ts:69-107 | the older fade loop: the fades of every card but the skipped one whose alpha is not the target, queued in list order |
| LegacyInteractions.LegacyCardInteractions.ZoomToCard | src/components/tarot/CardInteractions.ts:110-178 | the card's earlier zoom step is cancelled even without the application; with it, the zoom state and z-index are set and one zoom step from `scale.x` and the position to the fixed target is queued and recorded |
| LegacyInteractions.LegacyCardInteractions.FlipEntity | src/components/tarot/CardInteractions.ts:180-222 | a flipping card is left alone; otherwise it joins the flipping set, its zoom handle is cancelled and dropped, its scale becomes (1, 1), its zoom state normal, and one flip step around scale 1 is queued |
| LegacyInteractions.LegacyCardInteractions.Frame | src/components/tarot/CardInteractions.ts:80-219 | running any queued callback removes it and keeps the bookkeeping and the single zoomed card; the zoom step is the corrected one of Findings row 1 |
| Frames.ZoomFrameLands | src/app/components/tarot/utils/CardInteractions.ts:183-187 | a zoom frame eases scale and position with easeOutCubic; once the duration has elapsed it lands exactly on the target, and before that the scale stays between the start and the target |
| Frames.FlipUnitShape | src/app/components/tarot/utils/CardInteractions.ts:238 | the flip factor goes 1, then 0 at the half-way point, then back to 1, and stays in [0, 1] |
| Frames.FlipScaleXShape | src/app/components/tarot/utils/CardInteractions.ts:236-250 | during a flip `scale.x` never drops below 0.0001 times the base (1 under the older handler), and it is exactly the base once the duration has elapsed |
| Frames.FlipTogglesOnce | src/app/components/tarot/utils/CardInteractions.ts:242-245 | a run of flip frames that reaches the full duration turns the card over exactly once, or not at all when it was already turned |
| Frames.FadeValueShape | src/app/components/tarot/utils/CardInteractions.ts:79-81 | a fading alpha stays between its start and its target and equals the target once the duration has elapsed |
| Frames.CancelHandleOf | src/app/components/tarot/utils/CardInteractions.ts:151-152 | `cancelAnimationFrame` on the card's recorded non-zero handle removes that callback and keeps the map entry |
| Frames.CancelHandleKeepsTracking | src/app/components/tarot/utils/CardInteractions.ts:150-152 | cancelling a card's handle removes exactly that card's zoom step, keeps every other callback, and keeps the zoom and flip bookkeeping |
| Frames.OneZoomPerEntity | src/app/components/tarot/utils/CardInteractions.ts:150-192 | while every zoom step sits under its card's recorded handle, no card has two zoom steps queued |
| Frames.CancelStopsZoom | src/app/components/tarot/utils/CardInteractions.ts:151-152 | cancelling the recorded handle leaves no zoom step of that card in the queue |
| Frames.RequeueKeepsZooms | src/app/components/tarot/utils/CardInteractions.ts:188 | moving a zoom step to a fresh handle and recording that handle keeps every zoom step tracked and every handle live |
| Frames.FinishKeepsZooms | src/app/components/tarot/utils/CardInteractions.ts:189 | dropping a finished zoom step, and its handle, keeps the zoom bookkeeping |
| Frames.RequeueKeepsFlips | src/app/components/tarot/utils/CardInteractions.ts:247 | moving a flip step to a fresh handle keeps the flipping set matched to the flip steps |
| Frames.FinishKeepsFlips | src/app/components/tarot/utils/CardInteractions.ts:248-252 | dropping a finished flip step and removing its card from the flipping set keeps them matched |
| Frames.FadeQueuedKeepsTracking | src/app/components/tarot/utils/CardInteractions.ts:84-102 | queuing a fade under a fresh handle keeps the zoom and flip bookkeeping |
| Frames.RunFlipStep | src/app/components/tarot/utils/CardInteractions.ts:235-253 | a flip frame sets `scale.x` to the flip curve and `scale.y` to the base, turns the card over on the first frame past half-way, and then requeues itself or, at the end, leaves the queue and the flipping set |
| Frames.RequeueOrFinishFlip | src/app/components/tarot/utils/CardInteractions.ts:247-252 | the tail of a flip frame: requeued under the next handle before the end, removed with its card leaving the flipping set at the end |
| Frames.ApplyFlipPose | src/app/components/tarot/utils/CardInteractions.ts:236-245 | only the face and the two scales of the card change |
| Frames.RunFadeStep | src/app/components/tarot/utils/CardInteractions.ts:79-83 | a fade frame sets the card's alpha to the eased value, changes nothing else on the card, and requeues itself until the end |
| Frames.RunLayerFadeStep | src/app/components/tarot/utils/CardInteractions.ts:97-101 | a label-layer frame sets the layer's alpha to the eased value and requeues itself until the end |
| Frames.RequeueOrDrop | src/app/components/tarot/utils/CardInteractions.ts:82-100 | a fade is requeued under the next handle before the end and dropped at the end, with nothing else changed |
| Frames.RunFrame | src/app/components/tarot/utils/CardInteractions.ts:79-253 | running any queued callback removes it, keeps the bookkeeping, never changes the card list, the current card or a zoom state, and keeps the handles live except after the older handler's zoom-in |
| Frames.RunZoomStep | src/app/components/tarot/utils/CardInteractions.ts:183-190 | a zoom frame writes the eased pose; before the end it requeues itself and the map records the new handle; at the end it leaves the queue and its handle leaves the map (the older handler's zoom-in keeps it) |
| Frames.ApplyZoomPose | src/app/components/tarot/utils/CardInteractions.ts:186-187 | only the two scales and the position of the card change |
| Frames.RequeueZoom | src/app/components/tarot/utils/CardInteractions.ts:188 | the requeued zoom step's new handle is recorded in the map, so a later cancel stops it (the corrected requeue; see Findings) |
| Frames.FinishZoom | src/app/components/tarot/utils/CardInteractions.ts:189 | the last zoom frame leaves the queue and its handle leaves the map, except after the older handler's zoom-in (src/components/tarot/CardInteractions.ts:156-161) |
| Frames.RunZoomStepAsWritten | src/app/components/tarot/utils/CardInteractions.ts:182-191 | the zoom frame as written: the new handle goes to a local variable and the map is left alone |
| Frames.RequeueZoomAsWritten | src/app/components/tarot/utils/CardInteractions.ts:188 | the step moves to a new handle and the map keeps the old one |
| Frames.StaleHandleAfterOneFrame | src/app/components/tarot/utils/CardInteractions.ts:182-192 | after one requeue as written, the recorded handle names no queued callback while the card's zoom step still runs under another handle, so cancelling the recorded handle cannot stop it |
| Frames.ZoomFrame | src/app/components/tarot/utils/CardInteractions.ts:183-187 | the pose of a zoom frame, eased with easeOutCubic; `ZoomFrameLands` proves it lands on the target at the duration |
| Frames.FlipUnit | src/app/components/tarot/utils/CardInteractions.ts:238 | the flip factor `1 - t / 0.5` over the first half and `(t - 0.5) / 0.5` over the second; `FlipUnitShape` proves it goes 1, 0, 1 within [0, 1] |
| Frames.FlipScaleX | src/app/components/tarot/utils/CardInteractions.ts:236-250 | `scale.x` during a flip; `FlipScaleXShape` proves its floor and its final value |
| Frames.FlipToggles | src/app/components/tarot/utils/CardInteractions.ts:242-245 | whether a frame turns the card over; `FlipTogglesOnce` proves a full flip turns it exactly once |
| Frames.FadeValue | src/app/components/tarot/utils/CardInteractions.ts:79-81 | the alpha a fade frame writes; `FadeValueShape` proves it stays between start and target and lands on the target |
| Frames.CancelHandle | src/app/components/tarot/utils/CardInteractions.ts:151-152 | `cancelAnimationFrame` on the recorded handle; `CancelHandleOf` and `CancelHandleKeepsTracking` prove which callback it removes |
| Fades.FadeStepsExact | src/app/components/tarot/utils/CardInteractions.ts:71-84 | every queued fade is for a card other than the skipped one, runs from that card's own alpha to the target, and is never for a card already at the target; every other card gets one; at most one per card |
| Fades.FirstFaded | src/components/tarot/CardInteractions.ts:69-76 | the position where the older hide loop returns: the first card other than the zoomed one whose alpha is already 0, every card before it being skipped or not at 0 |
| Fades.HideStopsEarly | src/components/tarot/CardInteractions.ts:76 | with cards a, b, c where a is already hidden, zooming c as written fades nothing, while the corrected loop fades b |
| Fades.EnqueueHandles | src/app/components/tarot/utils/CardInteractions.ts:84-102 | callbacks requested in order get consecutive handles from the next one, and every handle below them is left as it was |
| Fades.EnqueueFadesKeepsTracking | src/app/components/tarot/utils/CardInteractions.ts:71-105 | queuing only fades keeps every zoom step under its handle and the flipping set matched |
| Fades.EnqueueKeepsSafe | src/app/components/tarot/utils/CardInteractions.ts:71-105 | queuing steps that are not zooms keeps every recorded handle safe to cancel |
| Fades.FadesKeepTracking | src/app/components/tarot/utils/CardInteractions.ts:71-85 | queuing the fades of a fade loop keeps the zoom and flip bookkeeping and the live handles |
| Fades.QueueFade | src/app/components/tarot/utils/CardInteractions.ts:78-84 | one fade of the card from its current alpha is queued under the next handle and nothing else changes |
| Fades.FadeOne | src/app/components/tarot/utils/CardInteractions.ts:72-84 | one turn of the fade loop: the event mode is set unless the card is skipped, and its fade is queued when it needs one |
| Fades.QueueFadeAt | src/app/components/tarot/utils/CardInteractions.ts:75-84 | after the card at position k the queue holds the fades of the first k + 1 cards |
| Fades.FadeEach | src/app/components/tarot/utils/CardInteractions.ts:71-85 | the loop queues exactly the fades of the whole card list, in list order, and sets the event mode of every card but the skipped one |
| Fades.QueueFades | src/app/components/tarot/utils/CardInteractions.ts:71-123 | the card fades of hiding and showing, with the bookkeeping kept |
| Fades.QueueFadesUntilFaded | src/components/tarot/CardInteractions.ts:69-87 | the older hide loop as written queues only the fades of the cards before the first one already hidden |
| Fades.FadeSteps | src/app/components/tarot/utils/CardInteractions.ts:71-84 | the fades the shared loop queues; `FadeStepsExact` characterises each and `FadeEach` proves the loop queues exactly these |
| Fades.FadeStepsUntilFaded | src/components/tarot/CardInteractions.ts:69-76 | the fades of the older loop that returns at the first faded card; `QueueFadesUntilFaded`, `FirstFaded` and `HideStopsEarly` characterise it |
| Scene.Body.constructor | src/app/components/tarot/animations/dealToSpread.ts:244-248 | a new body sits at its spawn point, unrotated and at rest, with its static and sensor flags and its original size |
| Scene.Label.constructor | src/app/components/tarot/animations/dealToSpread.ts:332-341 | a new label holds its text at the origin, unrotated and opaque |
| Scene.Entity.constructor | src/app/components/tarot/animations/dealToSpread.ts:253-296 | a new card is face down, not zoomed, clickable, masked, at the spawn point with unit scale, stacked at z-index `100 + 3 i`, showing only its back and without a label |
| Scene.CanvasRefs.constructor | src/app/components/tarot/TarotCanvas.tsx:77-86 | the refs start empty: no cards, no handles, nothing flipping, no current card, base scale 1, no deal and an empty frame queue |
| Scene.CanvasRefs.RequestFrame | src/app/components/tarot/utils/CardInteractions.ts:84 | the callback is queued under a new positive handle greater than every handle issued so far |
| Scene.CanvasRefs.CancelFrame | src/app/components/tarot/utils/CardInteractions.ts:152 | the callback with that handle, if still queued, is removed and nothing else changes |
| Common.MaxRBounds | src/app/components/tarot/utils/CardInteractions.ts:157 | `Math.max` is at least each argument and is the first when it is not smaller |
| Common.Lower | src/app/components/tarot/lib/spreads.ts:156-157 | `toLowerCase` keeps the length and lowers each character |
| Spreads.WordRun | src/app/components/tarot/lib/spreads.ts:51 | `\w+` at a position: the longest run of word characters there |
| Spreads.PlaceholderAt | src/app/components/tarot/lib/spreads.ts:51 | a match of `\$\{(\w+)\}` at the start of the text gives a word name, and the text starts with `${`, that name and `}` |
| Spreads.PlaceholderAtLiteral | src/app/components/tarot/lib/spreads.ts:51 | `${k}` with k a word always matches, with name k |
| Spreads.NoPlaceholdersUnchanged | src/app/components/tarot/lib/spreads.ts:50-51 | a label without placeholders comes out of the substitution unchanged, whatever the variables |
| Spreads.FillsAgree | src/app/components/tarot/lib/spreads.ts:50-51 | only the variables of the placeholders present matter: fills that agree on them give the same text |
| Spreads.OnePlaceholder | src/app/components/tarot/lib/spreads.ts:50-51 | in a label with one placeholder, that placeholder and nothing else is replaced by its fill |
| Spreads.NameOccurs | src/app/components/tarot/lib/spreads.ts:50-54 | every placeholder the substitution replaces occurs literally in the label |
| Spreads.OccurrenceFound | src/app/components/tarot/lib/spreads.ts:50-54 | every literal occurrence of `${k}`, k a word, is one the substitution replaces |
| Spreads.PlaceholderOccursIff | src/app/components/tarot/lib/spreads.ts:50-54 | the label contains `${k}` exactly when the substitution replaces a placeholder named k, so the name test and the substitution see the same placeholders |
| Spreads.RelationshipNameIsWord | src/app/components/tarot/lib/spreads.ts:54 | `relationshipName` matches `\w+` |
| Spreads.NeedsNameIff | src/app/components/tarot/lib/spreads.ts:53-54 | an intention needs the relationship name exactly when it is flagged or its label holds the `${relationshipName}` placeholder |
| Spreads.FindIntention | src/app/components/tarot/lib/spreads.ts:92 | `find` by id: a found intention is in the list and has the id; none means no intention of the list has it |
| Spreads.FindIntentionFirst | src/app/components/tarot/lib/spreads.ts:92 | the intention found is the leftmost one with the id: when position j is the first holding it, `find` returns that intention |
| Spreads.IntentionIn | src/app/components/tarot/lib/spreads.ts:90-96 | `getIntentionById`: a found intention has the id and belongs to some category; none means no category holds the id |
| Spreads.FindIntentionConcat | src/app/components/tarot/lib/spreads.ts:92 | finding in two lists one after the other finds in the first, then in the second |
| Spreads.IntentionInIsFirstOverall | src/app/components/tarot/lib/spreads.ts:90-96 | the category-by-category lookup returns the first intention with the id over all the intentions in order |
| Spreads.FindSpread | src/app/components/tarot/lib/spreads.ts:87-88 | `getSpreadById`: a found spread is in the list with the id; none means no spread has it |
| Spreads.FindSpreadFirst | src/app/components/tarot/lib/spreads.ts:87-88 | the spread found is the first with the id |
| Spreads.BinaryPathsInSound | src/app/components/tarot/lib/spreads.ts:233-237 | paths found come from a category whose first intention with the id is binary; none found means no category offers any |
| Spreads.GetPathsForIntentionSound | src/app/components/tarot/lib/spreads.ts:230-242 | the paths returned are those a category of some spread offers for the id; when none does, they are "Path A" and "Path B" |
| Spreads.WithProfile | src/app/components/tarot/lib/spreads.ts:59-62 | the filter keeps exactly the slots with that tag (with none, the untagged ones) |
| Spreads.WithProfileConcat | src/app/components/tarot/lib/spreads.ts:59-62 | filtering two runs of slots is filtering each |
| Spreads.MapKeys | src/app/components/tarot/lib/spreads.ts:67-77 | the map's keys are the keys set, each once |
| Spreads.MapEntries | src/app/components/tarot/lib/spreads.ts:67-77 | under each key set, the map holds one of the slots set with that key |
| Spreads.MapSet | src/app/components/tarot/lib/spreads.ts:71-76 | `set` on a new key appends it; on a known key it keeps the key's place and replaces the value |
| Spreads.LaterSetWins | src/app/components/tarot/lib/spreads.ts:74-77 | a slot set later under a key replaces one set earlier, so profile slots override untagged ones |
| Spreads.SetAll | src/app/components/tarot/lib/spreads.ts:67-77 | the two `forEach` loops build exactly the map of all the slots set in order |
| Spreads.GetSlotsForProfile | src/app/components/tarot/lib/spreads.ts:57-84 | `getSlotsForProfile` returns the slots the specification function gives |
| Spreads.MapValuesMeaning | src/app/components/tarot/lib/spreads.ts:79 | the map's values have distinct keys, cover every key set, and are the slots set last under them |
| Spreads.SlotsForProfileMeaning | src/app/components/tarot/lib/spreads.ts:57-84 | without slots for the profile the untagged slots come back; with them, one slot per key of the untagged and profile slots, each untagged or the profile's, and the profile's wherever it tags the key |
| Spreads.DistinctKeysKeptInOrder | src/app/components/tarot/lib/spreads.ts:67-79 | slots with distinct keys come back from the map unchanged and in order |
| Spreads.RangesFollowZodiac | src/app/components/tarot/lib/spreads.ts:101-120 | the twelve date ranges follow the zodiac wheel, sign by sign |
| Spreads.SeasonFrom | src/app/components/tarot/lib/spreads.ts:133-141 | from position i on, the loop returns the first range holding the date, or 0 when none does |
| Spreads.SeasonRangesPartitionYear | src/app/components/tarot/lib/spreads.ts:107-138 | every date of months 1 to 12 lies in exactly one range, the one the month-by-month table names |
| Spreads.SeasonAlwaysFound | src/app/components/tarot/lib/spreads.ts:131-142 | some range always holds the date, so the fallback `return 0` is never reached |
| Spreads.SeasonIndexByMonth | src/app/components/tarot/lib/spreads.ts:131-142 | the season of a date is the sign whose range holds it |
| Spreads.CurrentSeasonIndex | src/app/components/tarot/lib/spreads.ts:131-142 | the loop returns a sign index below 12 whose range holds the date |
| Spreads.Rotated | src/app/components/tarot/lib/spreads.ts:155 | the rotated wheel holds twelve signs, the i-th being sign `(k + i) mod 12` |
| Spreads.LowerSign | src/app/components/tarot/lib/spreads.ts:156-174 | each lowered sign is its slot key |
| Spreads.SignKeysDistinct | src/app/components/tarot/lib/spreads.ts:156-157 | the twelve slot keys differ |
| Spreads.SignIndexFrom | src/app/components/tarot/lib/spreads.ts:148 | `findIndex` of a key from position j: a sign whose lowered name is the key, or none |
| Spreads.SignLabelOfKey | src/app/components/tarot/lib/spreads.ts:148 | the label of a sign's key is the sign itself |
| Spreads.RowSlotAt | src/app/components/tarot/lib/spreads.ts:145-163 | slot i of the two rows is sign i of the wheel, at 25% or 65% height, at `(column + 1) * 100 / 7` % across, untagged and unrotated |
| Spreads.HoroscopeRowsShape | src/app/components/tarot/lib/spreads.ts:145-163 | every slot of the two rows is placed as above |
| Spreads.MobileSlotAt | src/app/components/tarot/lib/spreads.ts:166-179 | mobile slot i is sign i of the wheel, tagged mobile, in column `i mod 3` at 25/50/75% and row `i / 3` at 10/35/60/85% |
| Spreads.MobileSlotsShape | src/app/components/tarot/lib/spreads.ts:166-179 | every mobile slot is on that grid and no two share a cell |
| Spreads.BlockSlotAt | src/app/components/tarot/lib/spreads.ts:182-186 | slot i of a profile's block is sign i of the wheel tagged with that profile |
| Spreads.HoroscopeBlockHoldsEachSignOnce | src/app/components/tarot/lib/spreads.ts:182-186 | each profile's block holds twelve slots of that profile, every sign exactly once |
| Spreads.ThreeBlocksFiltered | src/app/components/tarot/lib/spreads.ts:182-186 | filtering the three tagged blocks for a profile gives that profile's block, and no slot is untagged |
| Spreads.HoroscopeFiltered | src/app/components/tarot/lib/spreads.ts:182-191 | the horoscope spread filtered for a profile is that profile's block |
| Spreads.HoroscopeSlotsForProfile | src/app/components/tarot/lib/spreads.ts:154-194 | the horoscope spread has 36 slots, and each profile is given exactly its own twelve |
| Spreads.OnlyTaggedDistinct | src/app/components/tarot/lib/spreads.ts:65-79 | with only tagged slots, with distinct keys, the profile gets exactly its tagged slots in order |
| Spreads.AllTagged | src/app/components/tarot/lib/spreads.ts:59-62 | slots all tagged with one profile pass that profile's filter whole and no other |
| Spreads.ProsConsShape | src/app/components/tarot/lib/spreads.ts:196-210 | the pros-and-cons spread has five distinct slots: "Focus" on top at 30%, then the pros and cons of path A and of path B left to right at 65% |
| Spreads.ProsConsSpreadsAgree | src/app/components/tarot/lib/spreads.ts:196-227 | the two pros-and-cons spreads share their slots and differ in id and in their default path names ("Path A"/"Path B" against "Option A"/"Option B") |
| Spreads.Replace | src/app/components/tarot/lib/spreads.ts:51 | the global placeholder replace; `PlaceholderAt`, `OnePlaceholder`, `FillsAgree` and `PlaceholderOccursIff` characterise it |
| Spreads.SubstituteVars | src/app/components/tarot/lib/spreads.ts:50-51 | `substituteVars`: each placeholder by its variable or `_____`; `NoPlaceholdersUnchanged`, `OnePlaceholder`, `PlaceholderOccursIff` and the `AppQuestion.Resolve…` lemmas characterise it |
| Spreads.NeedsRelationshipName | src/app/components/tarot/lib/spreads.ts:53-54 | `needsRelationshipName`: the flag or the `${relationshipName}` test; `NeedsNameIff` proves it equals the flag or the substitution replacing that placeholder |
| Spreads.GetIntentionById | src/app/components/tarot/lib/spreads.ts:90-96 | `getIntentionById` over the spread's categories; `IntentionIn` states found and absent, `IntentionInIsFirstOverall` with `FindIntentionFirst` that it is the first match in order |
| Spreads.BinaryPathsInSpreads | src/app/components/tarot/lib/spreads.ts:232-239 | the nested scan over spreads and categories for a binary intention; `BinaryPathsInSound` characterises it |
| Spreads.GetPathsForIntention | src/app/components/tarot/lib/spreads.ts:230-242 | `getPathsForIntention`: the binary intention's paths or the Path A/Path B default; `GetPathsForIntentionSound` characterises it |
| Spreads.SlotsForProfile | src/app/components/tarot/lib/spreads.ts:57-84 | `getSlotsForProfile` as a value; `SlotsForProfileMeaning` proves profile slots override untagged ones by key and `GetSlotsForProfile` that the Map loop computes it |
| Spreads.SeasonIndex | src/app/components/tarot/lib/spreads.ts:131-142 | `currentSeasonIndex` of a date; `SeasonIndexByMonth`, `SeasonAlwaysFound` and `CurrentSeasonIndex` characterise it |
| Spreads.SignLabel | src/app/components/tarot/lib/spreads.ts:148 | the label of a key: its sign, or the key; `SignLabelOfKey` proves a sign's key gives the sign |
| Spreads.HoroscopeSpreadDef | src/app/components/tarot/lib/spreads.ts:154-194 | `horoscopeSpreadDef(start)`; `HoroscopeSlotsForProfile` and `HoroscopeFiltered` prove its 36 slots and each profile's twelve |
| Spreads.HoroscopeBlock | src/app/components/tarot/lib/spreads.ts:182-186 | one profile's twelve tagged slots; `BlockSlotAt` and `HoroscopeBlockHoldsEachSignOnce` characterise it |
| Spreads.ProsConsSlots | src/app/components/tarot/lib/spreads.ts:196-210 | the five pros-and-cons slots; `ProsConsShape` characterises them |
| Spreads.PathAVsBSpreadDef | src/app/components/tarot/lib/spreads.ts:196-212 | `pathAVsBSpreadDef` with "Path A"/"Path B" defaults; `ProsConsSpreadsAgree` relates it to `ThisOrThatSpreadDef` |
| Spreads.ThisOrThatSpreadDef | src/app/components/tarot/lib/spreads.ts:213-227 | `thisOrThatSpreadDef` with "Option A"/"Option B" defaults; `ProsConsSpreadsAgree` relates it to `PathAVsBSpreadDef` |
| LegacySpreads.HoroscopeSpreadDef | src/lib/tarot/spreads.ts:110-124 | the older horoscope spread has twelve slots and no categories |
| LegacySpreads.HoroscopeShape | src/lib/tarot/spreads.ts:101-124 | its slot i is sign i of the wheel in the two-row layout, untagged |
| LegacySpreads.HoroscopeKeysDistinct | src/lib/tarot/spreads.ts:110-124 | its twelve keys differ |
| LegacySpreads.HoroscopeHoldsEverySign | src/lib/tarot/spreads.ts:110-124 | every sign has a slot, labelled with the sign |
| LegacySpreads.AppRowsAreLegacyLayout | src/app/components/tarot/lib/spreads.ts:160-184 | the app's desktop and tablet blocks are the older layout, tagged |
| AppQuestion.ListCategoriesForSpread | src/app/components/tarot/lib/question.ts:22-25 | the categories of a spread with the id, or none when no spread has it |
| AppQuestion.ListCategoriesOfFirst | src/app/components/tarot/lib/question.ts:22-25 | they are the categories of the first spread with the id |
| AppQuestion.ResolveWithoutPlaceholders | src/app/components/tarot/lib/question.ts:27-32 | a label without placeholders is its own resolved label |
| AppQuestion.ResolveDefaultBlanksAll | src/app/components/tarot/lib/question.ts:27-32 | with no variables every placeholder becomes five underscores |
| AppQuestion.ResolveDefaultOnePlaceholder | src/app/components/tarot/lib/question.ts:27-32 | with no variables, a label's one placeholder becomes `_____` and the rest is kept |
| AppQuestion.ResolveRelationshipName | src/app/components/tarot/lib/question.ts:27-32 | with the relationship name given, `${relationshipName}` becomes that name and the rest is kept |
| AppQuestion.ResolveIntentionLabel | src/app/components/tarot/lib/question.ts:27-32 | `resolveIntentionLabel`: `substituteVars` of the label; `ResolveWithoutPlaceholders`, `ResolveDefaultBlanksAll`, `ResolveDefaultOnePlaceholder` and `ResolveRelationshipName` characterise it |
| LibQuestion.EnsureDistinct | src/lib/tarot/question.ts:109-115 | A is kept; B is dropped exactly when both picks are set, non-empty and equal, and is kept otherwise; the result never has equal picks |
| LibQuestion.EnsureDistinctIdempotent | src/lib/tarot/question.ts:109-115 | making picks distinct twice is making them distinct once |
| LibQuestion.WithPhraseOfOptions | src/lib/tarot/question.ts:118-126 | each of the four living options gets its fixed phrase |
| LibQuestion.WithPhraseIgnoresCase | src/lib/tarot/question.ts:118-126 | the four options are recognised whatever their case |
| LibQuestion.WithPhraseShape | src/lib/tarot/question.ts:118-126 | every phrase starts with "Living "; no pick gives "Living with …", and an unknown pick is quoted after "Living with " |
| LibQuestion.LivingQuestion | src/lib/tarot/question.ts:139-149 | the living question takes both paths from the picks, asks for two distinct picks, and offers the four options |
| LibQuestion.LivingPathsDistinct | src/lib/tarot/question.ts:186-192 | for any two of the four options, the resolved paths differ; equal picks leave B as "Living with …" |
| LibQuestion.OtherQuestionsFixed | src/lib/tarot/question.ts:128-173 | every other question has two fixed paths and no drop-down |
| LibQuestion.FindQuestion | src/lib/tarot/question.ts:239 | a question found is in the list with the id; none means no question has it |
| LibQuestion.FindQuestionAt | src/lib/tarot/question.ts:239 | with ids unique up to it, a question is found by its own id |
| LibQuestion.LivingQuestionFound | src/lib/tarot/question.ts:239 | the living question's id finds it |
| LibQuestion.GetPathsForIntention | src/lib/tarot/question.ts:236-246 | no id, an empty id or an unknown id gives two empty paths |
| LibQuestion.GetPathsOfFound | src/lib/tarot/question.ts:236-246 | a known id gives its question's two paths resolved against the picks |
| LibQuestion.GetPathsIgnoresSelection | src/lib/tarot/question.ts:236-246 | for any id other than the living question's the picks do not matter |
| LibQuestion.GetPathsKeepsEqualPicks | src/lib/tarot/question.ts:236-246 | unlike resolving the question's paths, the lookup does not make picks distinct: equal picks give equal paths |
| LibQuestion.ResolveDropsEqualPicks | src/lib/tarot/question.ts:186-192 | resolving the living question with equal picks keeps A and turns B into "Living with …" |
| LibQuestion.FindMeta | src/lib/tarot/question.ts:230 | a spread's metadata found is in the list with the id; none means no entry has it |
| LibQuestion.SpreadAllowsIntentionsIff | src/lib/tarot/question.ts:210-230 | intentions are allowed for every spread id but "horoscope", unknown ids included |
| LibQuestion.Filter | src/lib/tarot/question.ts:232-233 | the filter keeps exactly the intentions of the category |
| LibQuestion.FilterAppend | src/lib/tarot/question.ts:232-233 | filtering two runs is filtering each |
| LibQuestion.FilterKeepsAll | src/lib/tarot/question.ts:232-233 | a run all of the category passes whole |
| LibQuestion.FilterDropsAll | src/lib/tarot/question.ts:232-233 | a run none of the category passes nothing |
| LibQuestion.BlockShape | src/lib/tarot/question.ts:15-75 | each category's block holds ten intentions of that category |
| LibQuestion.RelationshipsBlock | src/lib/tarot/question.ts:17-26 | the relationships block has ten relationship intentions |
| LibQuestion.HomeBlock | src/lib/tarot/question.ts:29-38 | the home block has ten home intentions |
| LibQuestion.CareerBlock | src/lib/tarot/question.ts:41-50 | the career block has ten career intentions |
| LibQuestion.GrowthBlock | src/lib/tarot/question.ts:53-62 | the growth block has ten growth intentions |
| LibQuestion.SpiritualBlock | src/lib/tarot/question.ts:65-74 | the spiritual block has ten spiritual intentions |
| LibQuestion.FilterFiveRuns | src/lib/tarot/question.ts:232-233 | filtering five runs, one per category, gives the run of that category |
| LibQuestion.IntentionsForCategoryAreItsBlock | src/lib/tarot/question.ts:232-233 | `intentionsForCategory` gives exactly the category's ten intentions, in catalog order |
| LibQuestion.WithPhrase | src/lib/tarot/question.ts:118-126 | `withPhrase`: the living phrase of a pick; `WithPhraseOfOptions`, `WithPhraseIgnoresCase` and `WithPhraseShape` characterise it |
| LibQuestion.ResolvePath | src/lib/tarot/question.ts:106-107 | `resolvePath`: a fixed path as it is, a path function applied to the selection; `OtherQuestionsFixed` and `GetPathsIgnoresSelection` use the fixed case |
| LibQuestion.ResolveQuestionPaths | src/lib/tarot/question.ts:186-192 | `resolveQuestionPaths`: both paths after `ensureDistinct` for two-distinct questions; `ResolveDropsEqualPicks` and `LivingPathsDistinct` characterise it |
| LibQuestion.SpreadAllowsIntentions | src/lib/tarot/question.ts:229-230 | `spreadAllowsIntentions`: the spread's flag, true when unknown; `SpreadAllowsIntentionsIff` proves it is false exactly for "horoscope" |
| LibQuestion.IntentionsForCategory | src/lib/tarot/question.ts:232-233 | `intentionsForCategory`: the catalog filtered by category; `IntentionsForCategoryAreItsBlock` proves it is the category's ten intentions in order |
| Cards.Numbered | src/lib/tarot/cards.ts:9-71 | each catalog card carries its number and an id made of that number, a dot and its name |
| Cards.NatToStringValue | src/lib/tarot/cards.ts:9-71 | the decimal digits of a card number read back as that number |
| Cards.NatToStringInjective | src/lib/tarot/cards.ts:9-71 | two numbers with the same digits are the same number |
| Cards.MajorsNumbered | src/lib/tarot/cards.ts:9-30 | the major arcana are numbered 0 to 21 in order |
| Cards.SparksNumbered | src/lib/tarot/cards.ts:31-40 | the Sparks are numbered 22 to 31 |
| Cards.TearsNumbered | src/lib/tarot/cards.ts:41-50 | the Tears are numbered 32 to 41 |
| Cards.SoilNumbered | src/lib/tarot/cards.ts:51-60 | the Soil are numbered 42 to 51 |
| Cards.WhispersNumbered | src/lib/tarot/cards.ts:61-70 | the Whispers are numbered 52 to 61 |
| Cards.NumberedIdsDiffer | src/lib/tarot/cards.ts:9-71 | ids starting with different numbers and a dot differ |
| Cards.CatalogNumbered | src/lib/tarot/cards.ts:8-72 | the catalog holds 62 cards, card k numbered k, and no two ids alike |
| Cards.PositionNumberedDistinct | src/lib/tarot/cards.ts:8-72 | cards numbered by their positions have distinct ids |
| Cards.FrontSrcInjective | src/lib/tarot/cards.ts:78-82 | two cards or colorways never share a front image path |
| Cards.BackSrcCases | src/lib/tarot/cards.ts:84-88 | the pink back is "Pink-Back.png", the grey one "Grey-Back.png" |
| Cards.BackIsNoFront | src/lib/tarot/cards.ts:78-88 | no back image path is a front image path |
| Cards.FrontSrcFor | src/lib/tarot/cards.ts:78-82 | `frontSrcFor`: `/cards/fronts/<colorway>/<id>.png`; `FrontSrcInjective` proves no two cards or colorways share a path |
| Cards.BackSrcFor | src/lib/tarot/cards.ts:84-88 | `backSrcFor`: the pink or grey back; `BackSrcCases` and `BackIsNoFront` characterise it |
| FlattenIntentions.Flattened | src/app/components/tarot/intention/flattenIntentions.ts:19-28 | the list has one entry per intention of the spread, in order, with the intention's id; without variables, with its own label |
| FlattenIntentions.FlattenIntentionsOf | src/app/components/tarot/intention/flattenIntentions.ts:19-28 | the nested loops build exactly that list |
| FlattenIntentions.AllIntentionsSnoc | src/app/components/tarot/intention/flattenIntentions.ts:21-22 | one more category adds its intentions at the end |
| FlattenIntentions.AllIntentionsPrefix | src/app/components/tarot/intention/flattenIntentions.ts:21-22 | the first c categories give as many intentions as they hold, and category c follows them |
| FlattenIntentions.AllIntentionsCount | src/app/components/tarot/intention/flattenIntentions.ts:21-22 | the list is as long as all the categories' intentions together |
| FlattenIntentions.AllIntentionsAt | src/app/components/tarot/intention/flattenIntentions.ts:21-22 | intention j of category c sits after every intention of the earlier categories |
| FlattenIntentions.AllIntentionsAppend | src/app/components/tarot/intention/flattenIntentions.ts:21-22 | two runs of categories give their intentions one after the other |
| FlattenIntentions.FlattenedAt | src/app/components/tarot/intention/flattenIntentions.ts:19-28 | the entry at position `(intentions before c) + j` is intention j of category c, interpolated when variables are given |
| FlattenIntentions.EntriesAppend | src/app/components/tarot/intention/flattenIntentions.ts:24 | the entries of two runs are the entries of each |
| FlattenIntentions.InterpolateAgreesWhenAllGiven | src/app/components/tarot/intention/flattenIntentions.ts:16-17 | when every placeholder has its variable, interpolation and `substituteVars` give the same label |
| FlattenIntentions.InterpolateMissingIsEmpty | src/app/components/tarot/intention/flattenIntentions.ts:16-17 | a missing variable leaves nothing, where `substituteVars` leaves five underscores |
| FlattenIntentions.Interpolate | src/app/components/tarot/intention/flattenIntentions.ts:16-17 | `interpolate`: each placeholder by its variable or nothing; `InterpolateAgreesWhenAllGiven` and `InterpolateMissingIsEmpty` relate it to `substituteVars` |
| IntentionStore.Store.constructor | src/app/components/tarot/intention/useIntentionStore.ts:26-33 | a new store for a spread is in preset mode with no text and no preset |
| IntentionStore.Store.SetMode | src/app/components/tarot/intention/useIntentionStore.ts:34 | only the mode changes |
| IntentionStore.Store.SetCustomText | src/app/components/tarot/intention/useIntentionStore.ts:35 | only the custom text changes |
| IntentionStore.Store.SelectPreset | src/app/components/tarot/intention/useIntentionStore.ts:36-37 | the mode becomes preset and the preset id and label are set; the custom text is kept |
| IntentionStore.Store.Reset | src/app/components/tarot/intention/useIntentionStore.ts:38-44 | the store is back to its initial state |
| ResolvedIntention.LeadingSpace | src/app/components/tarot/intention/useResolvedIntention.ts:9 | the white space a text starts with, up to its first other character |
| ResolvedIntention.TrailingSpace | src/app/components/tarot/intention/useResolvedIntention.ts:9 | the white space a text ends with, back to its last other character |
| ResolvedIntention.TrimMeaning | src/app/components/tarot/intention/useResolvedIntention.ts:9 | `trim` cuts only white space on either side and leaves a text that neither starts nor ends with it |
| ResolvedIntention.TrimIdempotent | src/app/components/tarot/intention/useResolvedIntention.ts:9 | trimming twice is trimming once |
| ResolvedIntention.ResolveReadsOnlyItsMode | src/app/components/tarot/intention/useResolvedIntention.ts:8-10 | custom mode reads only the text and preset mode only the preset label |
| ResolvedIntention.ResolveMeaning | src/app/components/tarot/intention/useResolvedIntention.ts:8-10 | a custom intention comes out trimmed and no longer than the text; a preset one is its label, or empty without one |
| ResolvedIntention.InitialResolvesEmpty | src/app/components/tarot/intention/useResolvedIntention.ts:8-10 | a new store resolves to the empty text |
| ResolvedIntention.Trim | src/app/components/tarot/intention/useResolvedIntention.ts:9 | `trim`: the text without leading and trailing ECMAScript white space; `TrimMeaning` and `TrimIdempotent` characterise it |
| ResolvedIntention.Resolve | src/app/components/tarot/intention/useResolvedIntention.ts:8-10 | the resolved intention of a store state; `ResolveMeaning`, `ResolveReadsOnlyItsMode` and `InitialResolvesEmpty` characterise it |
| TarotStore.AllSpreads | src/app/components/tarot/useTarotStore.ts:41-43 | the base spreads in order, then the horoscope spread starting at the season of the day |
| TarotStore.Store.constructor | src/app/components/tarot/useTarotStore.ts:46-62 | the first spread of the list is on the table (the horoscope when there is no base spread), nothing is assigned, the texts are empty, the colorway is pink and no deal runs |
| TarotStore.Store.SetSpread | src/app/components/tarot/useTarotStore.ts:64 | a new spread clears the assignments and changes nothing else |
| TarotStore.Store.SetAssignments | src/app/components/tarot/useTarotStore.ts:65 | only the assignments change |
| TarotStore.Store.SetDealing | src/app/components/tarot/useTarotStore.ts:66 | only the deal flag changes |
| TarotStore.Store.SetQuestion | src/app/components/tarot/useTarotStore.ts:68 | only the question changes |
| TarotStore.Store.SetFocusText | src/app/components/tarot/useTarotStore.ts:69 | only the focus text changes |
| TarotStore.Store.SetChoice1Text | src/app/components/tarot/useTarotStore.ts:70 | only the first choice text changes |
| TarotStore.Store.SetChoice2Text | src/app/components/tarot/useTarotStore.ts:71 | only the second choice text changes |
| TarotStore.Store.SetColorway | src/app/components/tarot/useTarotStore.ts:72 | only the colorway changes |
| TarotStore.Store.ResetTexts | src/app/components/tarot/useTarotStore.ts:74 | the four texts are cleared; spread, assignments, colorway and deal are kept |
| TarotStore.Ids | src/app/components/tarot/useTarotStore.ts:80 | the ids of the cards, in order |
| TarotStore.AllCardIdsNumbered | src/app/components/tarot/useTarotStore.ts:80 | there are 62 card ids, id k starts with k and a dot, and no two are alike |
| TarotStore.IdsOfNumbered | src/app/components/tarot/useTarotStore.ts:80 | the ids of position-numbered cards are numbered the same way and distinct |
| LegacyTarotStore.Store.constructor | src/components/tarot/useTarotStore.ts:35-45 | the older store knows its spreads and the horoscope, puts the first spread on the table (none when the list is empty), and starts with nothing assigned, no text and no deal |
| LegacyTarotStore.Store.SetSpread | src/components/tarot/useTarotStore.ts:47 | a new spread clears the assignments and changes nothing else |
| LegacyTarotStore.Store.SetAssignments | src/components/tarot/useTarotStore.ts:48 | only the assignments change |
| LegacyTarotStore.Store.SetDealing | src/components/tarot/useTarotStore.ts:49 | only the deal flag changes |
| LegacyTarotStore.Store.SetQuestion | src/components/tarot/useTarotStore.ts:51 | only the question changes |
| LegacyTarotStore.Store.SetFocusText | src/components/tarot/useTarotStore.ts:52 | only the focus text changes |
| LegacyTarotStore.Store.SetChoice1Text | src/components/tarot/useTarotStore.ts:53 | only the first choice text changes |
| LegacyTarotStore.Store.SetChoice2Text | src/components/tarot/useTarotStore.ts:54 | only the second choice text changes |
| LegacyTarotStore.Store.ResetTexts | src/components/tarot/useTarotStore.ts:56 | the four texts are cleared and everything else is kept |
| LegacyTarotStore.CardIds | src/components/tarot/useTarotStore.ts:59 | the ids of the cards, in order |
| LegacyTarotStore.AllCardIdsOfList | src/lib/store/cards.ts:12-16 | the older ids are the fool's and the magician's, in that order |
| LegacyTarotStore.CardIdsMembership | src/components/tarot/useTarotStore.ts:59 | an id is among the card ids exactly when some card of the list has it |

## Left out

- LegacyCanvas.LegacyDealToSpread and the canvas deal read `slot.key` (app `TarotCanvas.tsx:315`; older `TarotCanvas.tsx:176,229`), but slot records declare `idKey`, so the JavaScript would read `undefined`. The model uses `idKey`.
- The app canvas's own deal body (`src/app/components/tarot/TarotCanvas.tsx:286-378`) is not modelled, because `CardCreation.ts` is not part of this model. `Deal` models the standalone module `animations/dealToSpread.ts`, which neither canvas calls: the app canvas runs its own local `dealToSpread` (`TarotCanvas.tsx:278`), and so does the older canvas (`src/components/tarot/TarotCanvas.tsx:158`). The app canvas's guard and target selection are modelled in `Canvas` (`Canvas.CanvasGuardStricter`, `Canvas.SelectTargetsShape`).
- Deal.DealToSpread takes the seed as the parameter `seedStr`. The module imports `getSeed` from `../utils/cardPicking` (`animations/dealToSpread.ts:5-9`), but that file exports only `CardPick`, `pickCardsDeterministic` and `getSeedFromUrl`. So the module does not type-check, and if bundled anyway, the call `getSeed()` at line 208 throws after the teardown at lines 192-205, leaving `dealing` true, the old cards gone and no card dealt. The model instead deals with the seed the canvases' local `getSeed` would give: the URL's `seed` parameter, or `reading-<time>` (`src/app/components/tarot/TarotCanvas.tsx:34-38`).
- The canvas's local tween helper (`src/app/components/tarot/TarotCanvas.tsx:381-412`) is `cardTween` without callbacks, so it is modelled once in `CardTween`.
- `animateDealing` in `PhysicsUtils` is left out: it is driven by `setTimeout` and `Math.random`.
- `initializePixiApp`, `setupEngineAndRender` and `attachPhysicsTicker` in `PixiSetup` are left out. They construct PIXI and Matter objects and register tickers, and none of that logic is modelled.
- CardTween.CardTween.constructor requires `ms > 0`. A zero duration would divide by zero in the source's progress computation.
- LegacyCanvas.LegacyTween.constructor requires `ms > 0`, as above.
- PixiSetup.NumberTween.constructor requires `ms > 0`, as above.
- LabelPositioning.PositionAllLabels requires that no two cards share a label object. The source never shares labels, and the frame reasoning needs the labels to be distinct.
- Deal.RepositionLabels requires distinct labels, for the same reason.
- LabelPositioning.PositionLabel assumes the card's body, front sprite and view exist. The source's early return when they are missing (`LabelPositioning.ts:18`) is not modelled, because those objects are never absent in the model.
- LegacyCanvas.LegacyOnPointer tests the point against each card's unrotated rectangle. The older canvas turns card i by the fan angle `(i - n/2)*0.08` (`src/components/tarot/TarotCanvas.tsx:230`), and its sync copies that angle into the sprites' rotation (:120-125). So `getBounds()` (:250) is the larger axis-aligned box of the rotated sprite, and near a card's corners the source can flip a card, or a different card, where the model flips none. The app canvas turns cards only by 0 or π, so Canvas.HitTest is unaffected.
- ResponsiveSizing.ApplyBaseScaleToCards requires that no sprite is listed twice. The source would scale a repeated sprite's body twice, and every list the source builds holds each card once.
- ResponsiveSizing.RecomputeAndApplyBaseScale requires distinct sprites, for the same reason.
- Interactions.StartFlip requires `ms > 0`. At 0 the source's `(now - start) / ms` is `NaN` or `Infinity`, and every call in the source passes a positive constant. The same holds for each of the handler methods below.
- Interactions.CardInteractions.HideOtherCards requires `ms > 0`.
- Interactions.CardInteractions.ShowAllCards requires `ms > 0`.
- Interactions.CardInteractions.FadeCards requires `ms > 0`.
- Interactions.CardInteractions.QueueLayerFade requires `ms > 0`.
- Interactions.CardInteractions.ZoomToCard requires `ms > 0`.
- Interactions.CardInteractions.StartZoom requires `ms > 0`.
- Interactions.CardInteractions.FlipEntity requires `ms > 0`.
- LegacyInteractions.LegacyCardInteractions.HideOtherCards requires `ms > 0`.
- LegacyInteractions.LegacyCardInteractions.ShowAllCards requires `ms > 0`.
- LegacyInteractions.LegacyCardInteractions.FadeCards requires `ms > 0`.
- LegacyInteractions.LegacyCardInteractions.ZoomToCard requires `ms > 0`.
- LegacyInteractions.LegacyCardInteractions.FlipEntity requires `ms > 0`.
- Fades.QueueFade requires `ms > 0`.
- Fades.FadeOne requires `ms > 0`.
- Fades.QueueFadeAt requires `ms > 0`.
- Fades.QueueFades requires `ms > 0`.
- Fades.FadeEach requires `ms > 0`.
- Fades.QueueFadesUntilFaded requires `ms > 0`.
- React components, hooks and rendering, fonts, and the persistence of the intention store (its local-storage key `intention:<spreadId>`) are left out. They are UI and I/O.
- PIXI and Matter object construction is left out. `Assets.load` is an opaque success flag `loadOk`.
- The seeded random generator is an abstract stream of reals in [0, 1). `requestAnimationFrame` is a queue of callbacks, and time is a parameter.
- The current date is given as month and day parameters.
- `toLowerCase` is modelled for ASCII letters only.
- JavaScript prototype keys such as `constructor` in variable maps are not modelled.
- The spread list is a parameter of the stores and lookups. It is imported from `./questionDropDown` in the app's library, which is not part of this model, and `src/lib/tarot/spreads.ts` never defines it.
- The stray `)` at `src/app/components/tarot/useTarotStore.ts:76` makes that file fail to parse. The model reads the store as its author evidently meant it.
- `src/lib/store/spreads.ts` is not part of this model.
- The app canvas imports its handlers from the draft `src/app/components/tarot/CardInteractions.ts` (`TarotCanvas.tsx:11`, constructed at :112). That draft calls members it does not declare and is left out. In its place the model uses the complete version of the same handlers in `utils/CardInteractions.ts`, which no file in the source imports.
- Saving a reading is left out. It is local-storage I/O, and the older canvas calls `saveReading` (`src/components/tarot/TarotCanvas.tsx:284`) having imported only the type `savedReading`.

## Findings

| source | as written | input that shows it | evidently intended | confidence | as-written member | corrected member |
|---|---|---|---|---|---|---|
| src/app/components/tarot/utils/CardInteractions.ts:182-192 | each zoom step (here and at src/components/tarot/CardInteractions.ts:142-167) re-requests a frame into the local `raf`, but the handle map keeps the first frame id, so the recorded handle goes stale after one frame | zoom a card, let one frame run, then click it again: `cancelAnimationFrame` gets the spent first id and the zoom keeps running | the handle map is updated with every new frame id, so a later cancel stops the zoom. As written there is a second consequence: the stale step's last frame still runs `animMap.delete(entity)` (line 189), deleting the handle of a newer zoom of the same card, so two zoom steps can drive one view at once | not executed | Frames.RunZoomStepAsWritten, Frames.RequeueZoomAsWritten, Frames.StaleHandleAfterOneFrame | Frames.RunZoomStep, Frames.RequeueZoom, Frames.CancelStopsZoom |
| src/components/tarot/CardInteractions.ts:76 | `hideOtherCards` returns from the whole loop at the first card that is already faded out | cards a, b, c with c being zoomed in and a already at alpha 0: as written nothing is faded, though b should fade out | skip that card (`continue`) and fade the rest | not executed | Fades.QueueFadesUntilFaded, Fades.HideStopsEarly | LegacyInteractions.LegacyCardInteractions.FadeCards, LegacyInteractions.LegacyCardInteractions.HideOtherCards |
