/** The alpha fades the interaction handlers queue over the card list when a card is
  * zoomed (fade the others out) or released (fade everything back in). */
module Fades {
  import opened Scene
  import opened Frames

  /** The alpha of every entity of `s`, read once before the loop that queues the fades. */
  function Alphas(s: seq<Entity>): (r: seq<real>)
    reads set e | e in s
    ensures |r| == |s| && forall i :: 0 <= i < |s| ==> r[i] == s[i].alpha
  {
    seq(|s|, i requires 0 <= i < |s| reads set e | e in s => s[i].alpha)
  }

  /** The fades queued over the first `k` entities of `s`, in list order: one per entity
    * other than `skip` whose alpha is not already `to`. */
  function FadeSteps(s: seq<Entity>, alphas: seq<real>, skip: Entity?, to: real, now: real, ms: real, k: nat): seq<Anim>
    requires |alphas| == |s| && k <= |s|
    decreases k
  {
    if k == 0 then []
    else
      FadeSteps(s, alphas, skip, to, now, ms, k - 1) +
      (if s[k - 1] != skip && alphas[k - 1] != to then [FadeStep(s[k - 1], alphas[k - 1], to, now, ms)] else [])
  }

  /** Every queued fade targets `to` from the entity's own alpha, never for `skip`, and
    * every entity other than `skip` whose alpha differs from `to` gets one. */
  lemma {:induction false} FadeStepsExact(s: seq<Entity>, alphas: seq<real>, skip: Entity?, to: real, now: real, ms: real, k: nat)
    requires |alphas| == |s| && k <= |s|
    ensures forall a :: a in FadeSteps(s, alphas, skip, to, now, ms, k) ==>
      a.FadeStep? && a.e != skip && a.from != a.to && a.to == to && a.start == now && a.ms == ms &&
      exists i :: 0 <= i < k && s[i] == a.e && alphas[i] == a.from
    ensures forall i :: 0 <= i < k && s[i] != skip && alphas[i] != to ==>
      FadeStep(s[i], alphas[i], to, now, ms) in FadeSteps(s, alphas, skip, to, now, ms, k)
    ensures |FadeSteps(s, alphas, skip, to, now, ms, k)| <= k
    decreases k
  {
    if k > 0 {
      FadeStepsExact(s, alphas, skip, to, now, ms, k - 1);
    }
  }

  /** Every queued fade is a fade step. */
  lemma FadeStepsAreFades(s: seq<Entity>, alphas: seq<real>, skip: Entity?, to: real, now: real, ms: real, k: nat)
    requires |alphas| == |s| && k <= |s|
    ensures forall a :: a in FadeSteps(s, alphas, skip, to, now, ms, k) ==> a.FadeStep?
  {
    FadeStepsExact(s, alphas, skip, to, now, ms, k);
  }

  /** Position of the first entity other than `skip` whose alpha is already `to`, or the
    * length when there is none. */
  function FirstFaded(s: seq<Entity>, alphas: seq<real>, skip: Entity?, to: real): (k: nat)
    requires |alphas| == |s|
    ensures k <= |s|
    ensures forall i :: 0 <= i < k ==> s[i] == skip || alphas[i] != to
    ensures k < |s| ==> s[k] != skip && alphas[k] == to
    decreases |s|
  {
    if |s| == 0 then 0
    else if s[0] != skip && alphas[0] == to then 0
    else 1 + FirstFaded(s[1..], alphas[1..], skip, to)
  }

  /** The fades of a loop that returns at the first entity already at `to`: only the
    * entities before it are faded. */
  function FadeStepsUntilFaded(s: seq<Entity>, alphas: seq<real>, skip: Entity?, to: real, now: real, ms: real): seq<Anim>
    requires |alphas| == |s|
  {
    FadeSteps(s, alphas, skip, to, now, ms, FirstFaded(s, alphas, skip, to))
  }

  /** The stop-early loop misses a card: with the cards `a, b, c` where `a` is already
    * hidden, zooming `c` leaves `b` unfaded, while the full loop fades `b`. */
  lemma HideStopsEarly(a: Entity, b: Entity, c: Entity, now: real, ms: real)
    requires a != c && b != c
    ensures FadeStepsUntilFaded([a, b, c], [0.0, 1.0, 1.0], c, 0.0, now, ms) == []
    ensures FadeSteps([a, b, c], [0.0, 1.0, 1.0], c, 0.0, now, ms, 3) == [FadeStep(b, 1.0, 0.0, now, ms)]
  {
    var s := [a, b, c];
    var al := [0.0, 1.0, 1.0];
    assert FirstFaded(s, al, c, 0.0) == 0;
    assert FadeSteps(s, al, c, 0.0, now, ms, 1) == [];
    assert FadeSteps(s, al, c, 0.0, now, ms, 2) == [FadeStep(b, 1.0, 0.0, now, ms)];
  }

  /** The queue `pending` after the callbacks `anims` are requested in order, starting
    * at handle `first`. */
  function Enqueue(pending: map<nat, Anim>, first: nat, anims: seq<Anim>): map<nat, Anim>
    decreases |anims|
  {
    if |anims| == 0 then pending
    else
      var n := |anims| - 1;
      Enqueue(pending, first, anims[..n])[first + n := anims[n]]
  }

  /** Requesting the callbacks in order gives handle `first + k` to the `k`-th one and
    * leaves every handle below `first` as it was. */
  lemma {:induction false} EnqueueHandles(pending: map<nat, Anim>, first: nat, anims: seq<Anim>)
    ensures forall i :: i in Enqueue(pending, first, anims) <==> i in pending || first <= i < first + |anims|
    ensures forall k :: 0 <= k < |anims| ==> Enqueue(pending, first, anims)[first + k] == anims[k]
    ensures forall i :: i in pending && i < first ==> Enqueue(pending, first, anims)[i] == pending[i]
    decreases |anims|
  {
    if |anims| > 0 {
      var n := |anims| - 1;
      EnqueueHandles(pending, first, anims[..n]);
    }
  }

  lemma EnqueueSnoc(pending: map<nat, Anim>, first: nat, anims: seq<Anim>, a: Anim)
    ensures Enqueue(pending, first, anims + [a]) == Enqueue(pending, first, anims)[first + |anims| := a]
  {
    assert (anims + [a])[..|anims|] == anims;
  }

  lemma EnqueueAtMostOne(pending: map<nat, Anim>, first: nat, a: Anim)
    ensures Enqueue(pending, first, []) == pending
    ensures Enqueue(pending, first, [a]) == pending[first := a]
  {
    assert [a][..0] == [];
  }

  /** Queuing no callback, or one, extends the requests made so far. */
  lemma EnqueueAppend(pending: map<nat, Anim>, first: nat, anims: seq<Anim>, more: seq<Anim>)
    requires |more| <= 1
    ensures Enqueue(Enqueue(pending, first, anims), first + |anims|, more) == Enqueue(pending, first, anims + more)
  {
    if |more| == 1 {
      EnqueueSnoc(pending, first, anims, more[0]);
      assert Enqueue(Enqueue(pending, first, anims), first + |anims|, more) ==
        Enqueue(Enqueue(pending, first, anims), first + |anims|, [])[first + |anims| := more[0]] by {
        assert more[..0] == [];
      }
    } else {
      assert anims + more == anims;
    }
  }

  /** Queueing only fades under handles above every queued one keeps the zoom and flip
    * bookkeeping. */
  lemma {:induction false} EnqueueFadesKeepsTracking(pending: map<nat, Anim>, hoverAnim: map<Entity, nat>,
                                                     flipping: set<Entity>, first: nat, anims: seq<Anim>)
    requires forall i :: i in pending ==> i < first
    requires forall k :: 0 <= k < |anims| ==> anims[k].FadeStep? || anims[k].LayerFadeStep?
    requires ZoomsTrackedIn(pending, hoverAnim) && FlipsTrackedIn(pending, flipping)
    ensures ZoomsTrackedIn(Enqueue(pending, first, anims), hoverAnim)
    ensures FlipsTrackedIn(Enqueue(pending, first, anims), flipping)
    ensures HandlesLiveIn(pending, hoverAnim) ==> HandlesLiveIn(Enqueue(pending, first, anims), hoverAnim)
    decreases |anims|
  {
    if |anims| > 0 {
      var n := |anims| - 1;
      EnqueueFadesKeepsTracking(pending, hoverAnim, flipping, first, anims[..n]);
      EnqueueHandles(pending, first, anims[..n]);
      FadeQueuedKeepsTracking(Enqueue(pending, first, anims[..n]), hoverAnim, flipping, first + n, anims[n]);
    }
  }

  /** Queueing steps that are not zooms under handles from `first` on, above every
    * handle in the map, keeps the handles safe. */
  lemma EnqueueKeepsSafe(pending: map<nat, Anim>, hoverAnim: map<Entity, nat>, first: nat, anims: seq<Anim>)
    requires HandlesSafeIn(pending, hoverAnim, first)
    requires forall a :: a in anims ==> !a.ZoomStep?
    ensures HandlesSafeIn(Enqueue(pending, first, anims), hoverAnim, first + |anims|)
  {
    EnqueueHandles(pending, first, anims);
  }

  /** The queue and the next handle once the fade loop has visited the first `k`
    * entities of `s`, having started from `p0` and `n0`. */
  ghost predicate QueuedUpTo(pending: map<nat, Anim>, next: nat, p0: map<nat, Anim>, n0: nat, s: seq<Entity>,
                             alphas: seq<real>, skip: Entity?, to: real, now: real, ms: real, k: nat)
  {
    |alphas| == |s| && k <= |s| &&
    pending == Enqueue(p0, n0, FadeSteps(s, alphas, skip, to, now, ms, k)) &&
    next == n0 + |FadeSteps(s, alphas, skip, to, now, ms, k)|
  }

  /** Queue one fade of `e` from its current alpha to `to`. */
  method QueueFade(refs: CanvasRefs, e: Entity, to: real, now: real, ms: real)
    requires refs.QueueValid() && ms > 0.0
    modifies refs`pending, refs`nextFrame
    ensures refs.QueueValid()
    ensures refs.State() == old(refs.State()).(pending := old(refs.pending)[old(refs.nextFrame) := FadeStep(e, e.alpha, to, now, ms)],
      nextFrame := old(refs.nextFrame) + 1)
  {
    var id := refs.RequestFrame(FadeStep(e, e.alpha, to, now, ms));
  }

  /** The body of the fade loop for entity `k` of `s`: unless it is `skip`, give it the
    * event mode, then queue its fade as `QueueFadeAt` does. */
  method FadeOne(refs: CanvasRefs, e: Entity, skip: Entity?, mode: Common.Option<EventMode>, to: real, now: real, ms: real,
                 ghost s: seq<Entity>, ghost alphas: seq<real>, ghost k: nat, ghost p0: map<nat, Anim>, ghost n0: nat)
    requires refs.QueueValid() && ms > 0.0
    requires QueuedUpTo(refs.pending, refs.nextFrame, p0, n0, s, alphas, skip, to, now, ms, k)
    requires k < |s| && e == s[k] && e.alpha == alphas[k]
    modifies refs`pending, refs`nextFrame, e`eventMode
    ensures refs.QueueValid()
    ensures QueuedUpTo(refs.pending, refs.nextFrame, p0, n0, s, alphas, skip, to, now, ms, k + 1)
    ensures e.eventMode == if mode.Some? && e != skip then mode.value else old(e.eventMode)
  {
    if e != skip && mode.Some? {
      e.eventMode := mode.value;
    }
    QueueFadeAt(refs, e, skip, to, now, ms, s, alphas, k, p0, n0);
  }

  /** Queue the fade of entity `k` of `s` when it is not `skip` and its alpha is not
    * already `to`, so that the queue holds the fades of the first `k + 1` entities. */
  method QueueFadeAt(refs: CanvasRefs, e: Entity, skip: Entity?, to: real, now: real, ms: real,
                     ghost s: seq<Entity>, ghost alphas: seq<real>, ghost k: nat, ghost p0: map<nat, Anim>, ghost n0: nat)
    requires refs.QueueValid() && ms > 0.0
    requires QueuedUpTo(refs.pending, refs.nextFrame, p0, n0, s, alphas, skip, to, now, ms, k)
    requires k < |s| && e == s[k] && e.alpha == alphas[k]
    modifies refs`pending, refs`nextFrame
    ensures refs.QueueValid()
    ensures QueuedUpTo(refs.pending, refs.nextFrame, p0, n0, s, alphas, skip, to, now, ms, k + 1)
  {
    FadeStepsNext(p0, n0, s, alphas, skip, to, now, ms, k);
    ghost var done := FadeSteps(s, alphas, skip, to, now, ms, k);
    EnqueueAtMostOne(Enqueue(p0, n0, done), n0 + |done|, FadeStep(e, e.alpha, to, now, ms));
    if e != skip && e.alpha != to {
      QueueFade(refs, e, to, now, ms);
    }
  }

  /** The fade loop of `hideOtherCards` (with `skip` the zoomed card, `to` 0 and the
    * event mode "none") and of `showAllCards` (with no card skipped, `to` 1 and the
    * event mode "static"); the older handler sets no event mode. Each entity other than
    * `skip` gets the event mode, one whose alpha differs from `to` gets a fade queued
    * under the next handle, and only the event modes and the queue change. */
  method QueueFades(refs: CanvasRefs, skip: Entity?, mode: Common.Option<EventMode>, to: real, now: real, ms: real)
    requires FramesValid(refs) && ms > 0.0
    modifies refs`pending, refs`nextFrame, refs.sprites`eventMode
    ensures FramesValid(refs) && (old(HandlesLive(refs)) ==> HandlesLive(refs))
    ensures var anims := FadeSteps(refs.sprites, old(Alphas(refs.sprites)), skip, to, now, ms, |refs.sprites|);
      refs.pending == Enqueue(old(refs.pending), old(refs.nextFrame), anims) &&
      refs.nextFrame == old(refs.nextFrame) + |anims|
    ensures forall i :: 0 <= i < |refs.sprites| ==>
      refs.sprites[i].eventMode == if mode.Some? && refs.sprites[i] != skip then mode.value else old(refs.sprites[i].eventMode)
  {
    ghost var anims := FadeSteps(refs.sprites, Alphas(refs.sprites), skip, to, now, ms, |refs.sprites|);
    ghost var p0, n0, h0, f0 := refs.pending, refs.nextFrame, refs.hoverAnim, refs.flipping;
    FadeStepsExact(refs.sprites, Alphas(refs.sprites), skip, to, now, ms, |refs.sprites|);
    FadeEach(refs, skip, mode, to, now, ms, Alphas(refs.sprites));
    FadesKeepTracking(p0, h0, f0, n0, anims);
  }

  /** Queueing the fades of a fade loop keeps the zoom and flip bookkeeping. */
  lemma FadesKeepTracking(pending: map<nat, Anim>, hoverAnim: map<Entity, nat>, flipping: set<Entity>, first: nat, anims: seq<Anim>)
    requires forall i :: i in pending ==> i < first
    requires forall a :: a in anims ==> a.FadeStep?
    requires ZoomsTrackedIn(pending, hoverAnim) && FlipsTrackedIn(pending, flipping)
    ensures ZoomsTrackedIn(Enqueue(pending, first, anims), hoverAnim)
    ensures FlipsTrackedIn(Enqueue(pending, first, anims), flipping)
    ensures HandlesLiveIn(pending, hoverAnim) ==> HandlesLiveIn(Enqueue(pending, first, anims), hoverAnim)
  {
    assert forall j :: 0 <= j < |anims| ==> anims[j] in anims;
    EnqueueFadesKeepsTracking(pending, hoverAnim, flipping, first, anims);
  }

  /** The loop itself: one `FadeOne` per entity, in list order. */
  method FadeEach(refs: CanvasRefs, skip: Entity?, mode: Common.Option<EventMode>, to: real, now: real, ms: real,
                  ghost alphas: seq<real>)
    requires refs.QueueValid() && ms > 0.0
    requires |alphas| == |refs.sprites| && forall i :: 0 <= i < |refs.sprites| ==> refs.sprites[i].alpha == alphas[i]
    modifies refs`pending, refs`nextFrame, refs.sprites`eventMode
    ensures refs.QueueValid()
    ensures var anims := FadeSteps(refs.sprites, alphas, skip, to, now, ms, |refs.sprites|);
      refs.pending == Enqueue(old(refs.pending), old(refs.nextFrame), anims) &&
      refs.nextFrame == old(refs.nextFrame) + |anims|
    ensures forall i :: 0 <= i < |refs.sprites| ==>
      refs.sprites[i].eventMode == if mode.Some? && refs.sprites[i] != skip then mode.value else old(refs.sprites[i].eventMode)
  {
    ghost var s := refs.sprites;
    ghost var p0, n0 := refs.pending, refs.nextFrame;
    var k := 0;
    while k < |refs.sprites|
      invariant 0 <= k <= |s| && refs.sprites == s
      invariant refs.QueueValid()
      invariant QueuedUpTo(refs.pending, refs.nextFrame, p0, n0, s, alphas, skip, to, now, ms, k)
      invariant forall i :: 0 <= i < |s| ==>
        s[i].eventMode == if mode.Some? && s[i] != skip && s[i] in Visited(s, k) then mode.value else old(s[i].eventMode)
    {
      FadeOne(refs, refs.sprites[k], skip, mode, to, now, ms, s, alphas, k, p0, n0);
      assert Visited(s, k + 1) == Visited(s, k) + {s[k]};
      k := k + 1;
    }
    assert k == |s|;
    VisitedAll(s, k);
  }

  /** One more turn of the fade loop queues the fade of entity `k`, if it gets one, after
    * the fades queued so far. */
  lemma FadeStepsNext(pending: map<nat, Anim>, first: nat, s: seq<Entity>, alphas: seq<real>, skip: Entity?,
                      to: real, now: real, ms: real, k: nat)
    requires |alphas| == |s| && k < |s|
    ensures var done := FadeSteps(s, alphas, skip, to, now, ms, k);
      var q := if s[k] != skip && alphas[k] != to then [FadeStep(s[k], alphas[k], to, now, ms)] else [];
      FadeSteps(s, alphas, skip, to, now, ms, k + 1) == done + q &&
      Enqueue(Enqueue(pending, first, done), first + |done|, q) == Enqueue(pending, first, done + q)
  {
    var done := FadeSteps(s, alphas, skip, to, now, ms, k);
    var q := if s[k] != skip && alphas[k] != to then [FadeStep(s[k], alphas[k], to, now, ms)] else [];
    EnqueueAppend(pending, first, done, q);
  }

  /** The entities among the first `k` of `s`. */
  ghost function Visited(s: seq<Entity>, k: nat): set<Entity>
    requires k <= |s|
  {
    if k == 0 then {} else Visited(s, k - 1) + {s[k - 1]}
  }

  lemma {:induction false} VisitedAll(s: seq<Entity>, k: nat)
    requires k <= |s|
    ensures forall i :: 0 <= i < k ==> s[i] in Visited(s, k)
  {
    if k > 0 {
      VisitedAll(s, k - 1);
    }
  }

  /** The fade loop of the older `hideOtherCards` as written: it returns at the first
    * entity other than `skip` whose alpha is already `to`, leaving every later entity
    * unfaded. */
  method QueueFadesUntilFaded(refs: CanvasRefs, skip: Entity?, to: real, now: real, ms: real)
    requires FramesValid(refs) && ms > 0.0
    modifies refs`pending, refs`nextFrame
    ensures FramesValid(refs) && (old(HandlesLive(refs)) ==> HandlesLive(refs))
    ensures var anims := FadeStepsUntilFaded(refs.sprites, old(Alphas(refs.sprites)), skip, to, now, ms);
      refs.pending == Enqueue(old(refs.pending), old(refs.nextFrame), anims) &&
      refs.nextFrame == old(refs.nextFrame) + |anims|
  {
    ghost var s := refs.sprites;
    ghost var alphas := Alphas(refs.sprites);
    ghost var p0, n0, h0, f0 := refs.pending, refs.nextFrame, refs.hoverAnim, refs.flipping;
    ghost var stop := FirstFaded(s, alphas, skip, to);
    FadeStepsExact(s, alphas, skip, to, now, ms, stop);
    FadesKeepTracking(p0, h0, f0, n0, FadeSteps(s, alphas, skip, to, now, ms, stop));
    var k := 0;
    while k < |refs.sprites|
      invariant 0 <= k <= stop && refs.sprites == s
      invariant refs.QueueValid()
      invariant QueuedUpTo(refs.pending, refs.nextFrame, p0, n0, s, alphas, skip, to, now, ms, k)
    {
      var e := refs.sprites[k];
      assert e.alpha == alphas[k];
      if e != skip && e.alpha == to {
        assert k == stop;
        return;
      }
      QueueFadeAt(refs, e, skip, to, now, ms, s, alphas, k, p0, n0);
      k := k + 1;
    }
    assert k == stop;
  }

}
