/** The standalone question catalog: the intentions by category, the "this or that"
  * questions whose two paths may depend on the user's picks, the spread metadata, and the
  * helpers that resolve a question's paths. */
module LibQuestion {
  import opened Common

  datatype CategoryId = Relationships | Home | Career | Growth | Spiritual

  /** An intention of the catalog: its id, its category and its label. */
  datatype IntentionItem = IntentionItem(id: string, category: CategoryId, text: string)

  // The catalog's fifty intentions, written as five blocks of ten in the catalog's order.
  const RELATIONSHIPS_INTENTIONS: seq<IntentionItem> := [
    IntentionItem("rel-pattern-change", Relationships, "How do I understand the pattern I keep replaying in love and change it?"),
    IntentionItem("rel-healthy-boundaries", Relationships, "What would it look like to set healthy boundaries in this connection?"),
    IntentionItem("rel-unsaid-convo", Relationships, "How do I surface what\U{2019}s unsaid and prepare a better conversation?"),
    IntentionItem("rel-trust-repair", Relationships, "What is the path to repairing trust after it was strained or broken?"),
    IntentionItem("rel-compatibility-map", Relationships, "How do I see our compatibility strengths and pressure points clearly?"),
    IntentionItem("rel-balance-needs", Relationships, "How do I balance my needs with theirs without losing myself?"),
    IntentionItem("rel-crossroads", Relationships, "How do I navigate this crossroads with care and self-respect?"),
    IntentionItem("rel-release-baggage", Relationships, "What would it look like to release past baggage leaking into current connections?"),
    IntentionItem("rel-discernment-dating", Relationships, "How do I date with discernment\U{2014}what to lean into and what to avoid?"),
    IntentionItem("rel-deeper-intimacy", Relationships, "How do I invite deeper intimacy\U{2014}emotional, physical, and everyday?")
  ]

  const HOME_INTENTIONS: seq<IntentionItem> := [
    IntentionItem("home-daily-rhythm", Home, "How do I design a daily rhythm that actually sustains my energy?"),
    IntentionItem("home-keep-upgrade-letgo", Home, "How do I decide what to keep, upgrade, or let go in my space?"),
    IntentionItem("home-move-timing", Home, "What would it look like to plan a move or living change with the right timing and steps?"),
    IntentionItem("home-reduce-overwhelm", Home, "How do I reduce overwhelm by prioritizing the few things that matter?"),
    IntentionItem("home-rest-recovery", Home, "How do I strengthen rest and recovery\U{2014}sleep, downtime, real breaks?"),
    IntentionItem("home-community-belonging", Home, "How do I build supportive community and a stronger sense of belonging?"),
    IntentionItem("home-boundaries-work-screens", Home, "How do I set clean boundaries around work, screens, and home life?"),
    IntentionItem("home-simplify-stressors", Home, "What would it look like to simplify routines and eliminate hidden stressors?"),
    IntentionItem("home-rebuild-habits", Home, "How do I rebuild health habits after a setback or busy season?"),
    IntentionItem("home-make-room-joy", Home, "How do I make room for play, joy, and small adventures?")
  ]

  const CAREER_INTENTIONS: seq<IntentionItem> := [
    IntentionItem("career-define-good-work", Career, "How do I clarify what \U{201C}good work\U{201D} looks like for me this season?"),
    IntentionItem("career-find-leverage", Career, "Where can I find leverage\U{2014}skills, projects, and visibility that move the needle?"),
    IntentionItem("career-diagnose-bottleneck", Career, "How do I diagnose the bottleneck slowing my progress?"),
    IntentionItem("career-plan-pivot", Career, "What would it look like to plan a pivot\U{2014}what to carry forward and what to release?"),
    IntentionItem("career-negotiate-clarity", Career, "How do I negotiate from clarity\U{2014}value, limits, and non-negotiables?"),
    IntentionItem("career-price-position", Career, "How do I price and position my work in line with its value?"),
    IntentionItem("career-stabilize-cashflow", Career, "How do I stabilize cash flow and choose the next smart money move?"),
    IntentionItem("career-select-learning-goals", Career, "How do I select learning goals with the best return on effort?"),
    IntentionItem("career-build-reputation", Career, "How do I build reputation and relationships that open doors?"),
    IntentionItem("career-90day-plan", Career, "What is a focused 90-day plan I can actually execute?")
  ]

  const GROWTH_INTENTIONS: seq<IntentionItem> := [
    IntentionItem("growth-end-pattern", Growth, "How do I name the life pattern that\U{2019}s ready to end\U{2014}and end it well?"),
    IntentionItem("growth-self-trust", Growth, "How do I strengthen self-trust through small promises I keep?"),
    IntentionItem("growth-reframe-season", Growth, "What would it look like to reframe the story I\U{2019}m telling about this season?"),
    IntentionItem("growth-move-with-fear", Growth, "How do I turn fear into forward motion without bypassing feelings?"),
    IntentionItem("growth-embodied-confidence", Growth, "How do I build embodied confidence and calm authority?"),
    IntentionItem("growth-set-hold-boundary", Growth, "How do I set and hold a boundary with steadiness?"),
    IntentionItem("growth-process-grief-change", Growth, "How do I process grief or change with skill and compassion?"),
    IntentionItem("growth-unlock-creativity", Growth, "How do I unlock creativity through play, rest, and constraint?"),
    IntentionItem("growth-shift-procrastination", Growth, "How do I shift procrastination into repeatable momentum?"),
    IntentionItem("growth-north-star-habits", Growth, "How do I choose a north star and build habits that match it?")
  ]

  const SPIRITUAL_INTENTIONS: seq<IntentionItem> := [
    IntentionItem("spirit-align-values-purpose", Spiritual, "How do I align choices with my core values and sense of purpose?"),
    IntentionItem("spirit-deeper-invitation", Spiritual, "What would it look like to discern the deeper invitation beneath this challenge?"),
    IntentionItem("spirit-trust-intuition", Spiritual, "How do I listen to intuition and act on it with confidence?"),
    IntentionItem("spirit-read-season", Spiritual, "How do I read the season I\U{2019}m in\U{2014}beginning, middle, or ending?"),
    IntentionItem("spirit-spot-patterns", Spiritual, "How do I spot meaningful patterns and signals\U{2014}not just noise?"),
    IntentionItem("spirit-balance-surrender", Spiritual, "How do I balance control and surrender wisely in this chapter?"),
    IntentionItem("spirit-make-meaning", Spiritual, "How do I make meaning from a hard experience and integrate it?"),
    IntentionItem("spirit-gratitude-presence", Spiritual, "How do I cultivate gratitude and presence in ordinary days?"),
    IntentionItem("spirit-longterm-vision", Spiritual, "How do I clarify the long-term vision and the next right step?"),
    IntentionItem("spirit-open-to-support", Spiritual, "How do I open to support\U{2014}people, practices, and resources that fit?")
  ]

  /** `INTENTIONS`: the five blocks one after the other. */
  const INTENTIONS: seq<IntentionItem> :=
    RELATIONSHIPS_INTENTIONS + HOME_INTENTIONS + CAREER_INTENTIONS + GROWTH_INTENTIONS + SPIRITUAL_INTENTIONS

  // ---------------------------------------------------------------------------------------
  // Selections and paths

  /** `{ A?: string; B?: string }`: the picks of the one or two drop-downs. */
  datatype Selection = Selection(a: Option<string>, b: Option<string>)

  /** A JavaScript-truthy optional string: present and not empty. */
  predicate Truthy(o: Option<string>)
  {
    o.Some? && o.value != ""
  }

  /** Both picks are made and are the same. */
  predicate Clash(sel: Selection)
  {
    Truthy(sel.a) && Truthy(sel.b) && sel.a == sel.b
  }

  /** `ensureDistinct(sel)`: equal picks lose B; any other selection is returned as it is. */
  function EnsureDistinct(sel: Selection): (r: Selection)
    ensures r.a == sel.a
    ensures r.b != sel.b <==> Clash(sel)
    ensures r.b == sel.b || r.b == None
    ensures !Clash(r)
  {
    if Truthy(sel.a) && Truthy(sel.b) && sel.a == sel.b then sel.(b := None) else sel
  }

  /** Enforcing distinct picks twice is enforcing them once. */
  lemma EnsureDistinctIdempotent(sel: Selection)
    ensures EnsureDistinct(EnsureDistinct(sel)) == EnsureDistinct(sel)
  {
  }

  /** `withPhrase(opt)`: the path text of a living arrangement. */
  function WithPhrase(opt: Option<string>): string
  {
    if !Truthy(opt) then "Living with \U{2026}"
    else if Lower(opt.value) == "alone" then "Living alone"
    else if Lower(opt.value) == "roommate" then "Living with a roommate"
    else if Lower(opt.value) == "partner" then "Living with a partner"
    else if Lower(opt.value) == "family" then "Living with family"
    else "Living with " + opt.value
  }

  /** Which pick a path reads. */
  datatype Side = SideA | SideB

  /** `PathText`: a fixed string, or the function `sel => withPhrase(sel?.A)` (or `?.B`),
    * the only path functions of the catalog. */
  datatype PathText = Fixed(s: string) | LivingPhrase(side: Side)

  datatype SubOptionMode = Single | TwoDistinct

  /** A question: id, category, label, its two paths, and the optional drop-down mode and
    * options. */
  datatype QuestionItem = QuestionItem(id: string, category: CategoryId, text: string,
                                       pathA: PathText, pathB: PathText,
                                       mode: Option<SubOptionMode>, subOptions: Option<seq<string>>)

  /** `sel?.A` or `sel?.B`. */
  function Pick(sel: Option<Selection>, side: Side): Option<string>
  {
    match sel
    case None => None
    case Some(s) => if side == SideA then s.a else s.b
  }

  /** `resolvePath(p, sel)`: a fixed path as it is, a path function applied to the selection. */
  function ResolvePath(p: PathText, sel: Option<Selection>): string
  {
    match p
    case Fixed(s) => s
    case LivingPhrase(side) => WithPhrase(Pick(sel, side))
  }

  const QUESTIONS: seq<QuestionItem> := [
    QuestionItem("rel-stay-or-leave", Relationships, "Should I stay in this relationship or leave?", Fixed("Staying"), Fixed("Leaving"), None, None),
    QuestionItem("rel-reconcile-or-moveon", Relationships, "Is it better to reconcile or move on?", Fixed("Reconciling"), Fixed("Moving On"), None, None),
    QuestionItem("rel-openup-or-boundaries", Relationships, "Should I open up more or set stronger boundaries?", Fixed("Opening Up"), Fixed("Stronger Boundaries"), None, None),
    QuestionItem("rel-fling-or-longterm", Relationships, "Should I treat this connection as a fling or something long-term?", Fixed("Fling"), Fixed("Long-Term"), None, None),
    QuestionItem("rel-partner-needs-or-own-growth", Relationships, "Do I focus on my partner\U{2019}s needs or my own growth first?", Fixed("My Partner\U{2019}s Needs"), Fixed("My Own Growth"), None, None),
    QuestionItem("home-move-or-stay", Home, "Should I move or stay where I am?", Fixed("Moving"), Fixed("Staying"), None, None),
    QuestionItem("home-rent-or-buy", Home, "Is it better to rent or buy right now?", Fixed("Renting"), Fixed("Buying"), None, None),
    QuestionItem("home-live-alone-vs-with", Home, "Should I live alone or with roommates/partner/family?",
                 LivingPhrase(SideA), LivingPhrase(SideB), Some(TwoDistinct), Some(["Alone", "Roommate", "Partner", "Family"])),
    QuestionItem("home-settle-or-abroad", Home, "Do I settle here or explore living abroad?", Fixed("Settling Here"), Fixed("Exploring Abroad"), None, None),
    QuestionItem("home-downsize-or-expand", Home, "Should I downsize or expand my living situation?", Fixed("Downsizing"), Fixed("Expanding"), None, None),
    QuestionItem("car-stay-or-new", Career, "Should I stay at my current job or find a new one?", Fixed("Current Job"), Fixed("New Job"), None, None),
    QuestionItem("car-stability-or-passion", Career, "Is it better to pursue stability or passion?", Fixed("Stability"), Fixed("Passion"), None, None),
    QuestionItem("car-business-or-employment", Career, "Do I start my own business or stick with employment?", Fixed("Own Business"), Fixed("Employment"), None, None),
    QuestionItem("car-invest-or-educate", Career, "Should I invest/save money or spend on growth/education?", Fixed("Investing / Saving"), Fixed("Growth / Education"), None, None),
    QuestionItem("car-promo-or-balance", Career, "Do I take the promotion or keep work-life balance?", Fixed("Promotion"), Fixed("Work-Life Balance"), None, None),
    QuestionItem("gro-logic-or-intuition", Growth, "Should I follow logic or intuition?", Fixed("Logic"), Fixed("Intuition"), None, None),
    QuestionItem("gro-rest-or-push", Growth, "Is it better to rest or push forward?", Fixed("Rest"), Fixed("Pushing Forward"), None, None),
    QuestionItem("gro-continue-or-reinvent", Growth, "Do I continue on my current path or reinvent myself?", Fixed("Current Path"), Fixed("Reinventing Myself"), None, None),
    QuestionItem("gro-self-or-others", Growth, "Should I focus on self-development or helping others?", Fixed("Self-Development"), Fixed("Helping Others"), None, None),
    QuestionItem("gro-private-or-public", Growth, "Do I keep my spiritual practice private or share it publicly?", Fixed("Private"), Fixed("Public"), None, None),
    QuestionItem("spi-patience-or-action", Spiritual, "Is this lesson about patience or action?", Fixed("Patience"), Fixed("Action"), None, None),
    QuestionItem("spi-surrender-or-control", Spiritual, "Do I surrender to the flow or try to take control?", Fixed("Surrendering"), Fixed("Taking Control"), None, None),
    QuestionItem("spi-trust-or-plan", Spiritual, "Should I trust the universe or make a concrete plan?", Fixed("Trusting The Universe"), Fixed("Making A Concrete Plan"), None, None),
    QuestionItem("spi-karmic-or-fresh", Spiritual, "Is this situation karmic or a fresh start?", Fixed("Karmic"), Fixed("Fresh Start"), None, None),
    QuestionItem("spi-heal-or-create", Spiritual, "Do I focus on healing the past or creating the future?", Fixed("Healing The Past"), Fixed("Creating The Future"), None, None)
  ]

  /** The two path labels of a question. */
  datatype PathPair = PathPair(pathA: string, pathB: string)

  /** `resolveQuestionPaths(q, sel)`: both paths, from the selection (none read as `{}`) made
    * distinct first when the question asks for two distinct picks. */
  function ResolveQuestionPaths(q: QuestionItem, sel: Option<Selection>): PathPair
  {
    var given := if sel.Some? then sel.value else Selection(None, None);
    var normalized := if q.mode == Some(TwoDistinct) then EnsureDistinct(given) else given;
    PathPair(ResolvePath(q.pathA, Some(normalized)), ResolvePath(q.pathB, Some(normalized)))
  }

  /** `QUESTIONS.find(q => q.id === id)`. */
  function FindQuestion(qs: seq<QuestionItem>, id: string): (r: Option<QuestionItem>)
    ensures r.Some? ==> r.value in qs && r.value.id == id
    ensures r.None? ==> forall q :: q in qs ==> q.id != id
  {
    if qs == [] then None
    else if qs[0].id == id then Some(qs[0])
    else FindQuestion(qs[1..], id)
  }

  /** `getPathsForIntention(intentionId, selection)`: no id, an empty id or an unknown id
    * gives two empty paths; a question's paths are resolved from the selection as given. */
  function GetPathsForIntention(id: Option<string>, sel: Option<Selection>): (r: PathPair)
    ensures !Truthy(id) ==> r == PathPair("", "")
    ensures Truthy(id) && (forall q :: q in QUESTIONS ==> q.id != id.value) ==> r == PathPair("", "")
  {
    if !Truthy(id) then PathPair("", "")
    else match FindQuestion(QUESTIONS, id.value)
      case None => PathPair("", "")
      case Some(q) => PathPair(ResolvePath(q.pathA, sel), ResolvePath(q.pathB, sel))
  }

  // ---------------------------------------------------------------------------------------
  // Spreads and categories

  /** `SpreadMeta`: a spread id, its label and whether it offers the intention drop-down. */
  datatype SpreadMeta = SpreadMeta(id: string, text: string, allowsIntentions: bool)

  const SPREAD_META: seq<SpreadMeta> := [
    SpreadMeta("ppf", "Past \U{2022} Present \U{2022} Future", true),
    SpreadMeta("fml", "Focus \U{2022} Moving Forward \U{2022} Letting Go", true),
    SpreadMeta("kdk", "What I Know \U{2022} What I Don\U{2019}t \U{2022} What I Need To", true),
    SpreadMeta("pphao", "Past \U{2022} Present \U{2022} Hidden \U{2022} Advice \U{2022} Outcome", true),
    SpreadMeta("gcsbl", "Goal \U{2022} Status \U{2022} Block \U{2022} Bridge \U{2022} Lesson", true),
    SpreadMeta("pathab", "This or That With Pros and Cons", true),
    SpreadMeta("horoscope", "Horoscope", false)
  ]

  /** `SPREADS.find(s => s.id === id)`. */
  function FindMeta(metas: seq<SpreadMeta>, id: string): (r: Option<SpreadMeta>)
    ensures r.Some? ==> r.value in metas && r.value.id == id
    ensures r.None? ==> forall m :: m in metas ==> m.id != id
  {
    if metas == [] then None
    else if metas[0].id == id then Some(metas[0])
    else FindMeta(metas[1..], id)
  }

  /** `spreadAllowsIntentions(id)`: the spread's flag, true for an id with no metadata. */
  function SpreadAllowsIntentions(id: string): bool
  {
    match FindMeta(SPREAD_META, id)
    case Some(m) => m.allowsIntentions
    case None => true
  }

  /** Only the horoscope spread turns the intention drop-down off; every other id, known
    * or not, keeps it. */
  lemma SpreadAllowsIntentionsIff(id: string)
    ensures SpreadAllowsIntentions(id) <==> id != "horoscope"
  {
    var f := FindMeta(SPREAD_META, id);
    if id == "horoscope" {
      assert SPREAD_META[6] in SPREAD_META;
      assert f.Some?;
    }
  }

  /** `INTENTIONS.filter(i => i.category === category)`. */
  function Filter(xs: seq<IntentionItem>, c: CategoryId): (r: seq<IntentionItem>)
    ensures forall x :: x in r <==> x in xs && x.category == c
  {
    if xs == [] then []
    else if xs[0].category == c then [xs[0]] + Filter(xs[1..], c)
    else Filter(xs[1..], c)
  }

  function IntentionsForCategory(c: CategoryId): seq<IntentionItem>
  {
    Filter(INTENTIONS, c)
  }

  lemma {:induction false} FilterAppend(a: seq<IntentionItem>, b: seq<IntentionItem>, c: CategoryId)
    ensures Filter(a + b, c) == Filter(a, c) + Filter(b, c)
    decreases |a|
  {
    if a == [] {
      assert a + b == b;
    } else {
      assert (a + b)[1..] == a[1..] + b;
      FilterAppend(a[1..], b, c);
    }
  }

  /** A run whose intentions all have the category is kept whole, in order. */
  lemma {:induction false} FilterKeepsAll(xs: seq<IntentionItem>, c: CategoryId)
    requires forall i :: 0 <= i < |xs| ==> xs[i].category == c
    ensures Filter(xs, c) == xs
    decreases |xs|
  {
    if xs != [] {
      FilterKeepsAll(xs[1..], c);
    }
  }

  /** A run with none of the category is dropped whole. */
  lemma {:induction false} FilterDropsAll(xs: seq<IntentionItem>, c: CategoryId)
    requires forall i :: 0 <= i < |xs| ==> xs[i].category != c
    ensures Filter(xs, c) == []
    decreases |xs|
  {
    if xs != [] {
      FilterDropsAll(xs[1..], c);
    }
  }

  /** The block of ten intentions written for a category. */
  function BlockOf(c: CategoryId): seq<IntentionItem>
  {
    match c
    case Relationships => RELATIONSHIPS_INTENTIONS
    case Home => HOME_INTENTIONS
    case Career => CAREER_INTENTIONS
    case Growth => GROWTH_INTENTIONS
    case Spiritual => SPIRITUAL_INTENTIONS
  }

  /** Each block has ten intentions, all of its own category. */
  lemma BlockShape(c: CategoryId)
    ensures |BlockOf(c)| == 10
    ensures forall i :: 0 <= i < |BlockOf(c)| ==> BlockOf(c)[i].category == c
  {
    match c
    case Relationships => RelationshipsBlock();
    case Home => HomeBlock();
    case Career => CareerBlock();
    case Growth => GrowthBlock();
    case Spiritual => SpiritualBlock();
  }

  lemma RelationshipsBlock()
    ensures |RELATIONSHIPS_INTENTIONS| == 10
    ensures forall i :: 0 <= i < 10 ==> RELATIONSHIPS_INTENTIONS[i].category == Relationships
  {
  }

  lemma HomeBlock()
    ensures |HOME_INTENTIONS| == 10
    ensures forall i :: 0 <= i < 10 ==> HOME_INTENTIONS[i].category == Home
  {
  }

  lemma CareerBlock()
    ensures |CAREER_INTENTIONS| == 10
    ensures forall i :: 0 <= i < 10 ==> CAREER_INTENTIONS[i].category == Career
  {
  }

  lemma GrowthBlock()
    ensures |GROWTH_INTENTIONS| == 10
    ensures forall i :: 0 <= i < 10 ==> GROWTH_INTENTIONS[i].category == Growth
  {
  }

  lemma SpiritualBlock()
    ensures |SPIRITUAL_INTENTIONS| == 10
    ensures forall i :: 0 <= i < 10 ==> SPIRITUAL_INTENTIONS[i].category == Spiritual
  {
  }

  /** Filtering five runs, each of one category, keeps the run of the category asked for. */
  lemma FilterFiveRuns(r: seq<IntentionItem>, h: seq<IntentionItem>, k: seq<IntentionItem>,
                       g: seq<IntentionItem>, p: seq<IntentionItem>, c: CategoryId)
    requires forall i :: 0 <= i < |r| ==> r[i].category == Relationships
    requires forall i :: 0 <= i < |h| ==> h[i].category == Home
    requires forall i :: 0 <= i < |k| ==> k[i].category == Career
    requires forall i :: 0 <= i < |g| ==> g[i].category == Growth
    requires forall i :: 0 <= i < |p| ==> p[i].category == Spiritual
    ensures Filter(r + h + k + g + p, c) ==
      match c
      case Relationships => r
      case Home => h
      case Career => k
      case Growth => g
      case Spiritual => p
  {
    FilterAppend(r + h + k + g, p, c);
    FilterAppend(r + h + k, g, c);
    FilterAppend(r + h, k, c);
    FilterAppend(r, h, c);
    if c == Relationships { FilterKeepsAll(r, c); } else { FilterDropsAll(r, c); }
    if c == Home { FilterKeepsAll(h, c); } else { FilterDropsAll(h, c); }
    if c == Career { FilterKeepsAll(k, c); } else { FilterDropsAll(k, c); }
    if c == Growth { FilterKeepsAll(g, c); } else { FilterDropsAll(g, c); }
    if c == Spiritual { FilterKeepsAll(p, c); } else { FilterDropsAll(p, c); }
  }

  /** `intentionsForCategory(c)` is exactly the category's ten intentions, in catalog order. */
  lemma IntentionsForCategoryAreItsBlock(c: CategoryId)
    ensures IntentionsForCategory(c) == BlockOf(c)
    ensures |IntentionsForCategory(c)| == 10
  {
    BlockShape(Relationships);
    BlockShape(Home);
    BlockShape(Career);
    BlockShape(Growth);
    BlockShape(Spiritual);
    BlockShape(c);
    FilterFiveRuns(BlockOf(Relationships), BlockOf(Home), BlockOf(Career), BlockOf(Growth), BlockOf(Spiritual), c);
  }

  // ---------------------------------------------------------------------------------------
  // The living-arrangement question

  /** The drop-down options of the living-arrangement question. */
  const LIVING_OPTIONS: seq<string> := ["Alone", "Roommate", "Partner", "Family"]

  /** The four options name the four fixed phrases. */
  lemma WithPhraseOfOptions()
    ensures WithPhrase(Some("Alone")) == "Living alone"
    ensures WithPhrase(Some("Roommate")) == "Living with a roommate"
    ensures WithPhrase(Some("Partner")) == "Living with a partner"
    ensures WithPhrase(Some("Family")) == "Living with family"
  {
    assert Lower("Alone") == "alone";
    assert Lower("Roommate") == "roommate";
    assert Lower("Partner") == "partner";
    assert Lower("Family") == "family";
  }

  /** The fixed phrases ignore the case of the pick. */
  lemma WithPhraseIgnoresCase(s: string, t: string)
    requires Lower(s) == Lower(t)
    requires Lower(s) in {"alone", "roommate", "partner", "family"}
    ensures WithPhrase(Some(s)) == WithPhrase(Some(t))
  {
    assert |s| == |Lower(s)| > 0 && |t| == |Lower(t)| > 0;
  }

  /** Whatever the pick, the path reads "Living ...": no pick gives the open phrase, and a
    * pick that is none of the four options is used as it is after "Living with ". */
  lemma WithPhraseShape(opt: Option<string>)
    ensures var r := WithPhrase(opt);
      |r| >= 7 && r[..7] == "Living " &&
      (!Truthy(opt) ==> r == "Living with \U{2026}") &&
      (Truthy(opt) && Lower(opt.value) !in {"alone", "roommate", "partner", "family"} ==> r == "Living with " + opt.value)
  {
  }

  /** The living-arrangement question: two distinct picks, both paths read from them. */
  lemma LivingQuestion()
    ensures QUESTIONS[7].id == "home-live-alone-vs-with"
    ensures QUESTIONS[7].pathA == LivingPhrase(SideA) && QUESTIONS[7].pathB == LivingPhrase(SideB)
    ensures QUESTIONS[7].mode == Some(TwoDistinct) && QUESTIONS[7].subOptions == Some(LIVING_OPTIONS)
  {
  }

  /** With both picks among the options, the two resolved paths always differ: equal picks
    * lose B, which leaves B's path open, and different options have different phrases. */
  lemma LivingPathsDistinct(a: string, b: string)
    requires a in LIVING_OPTIONS && b in LIVING_OPTIONS
    ensures var r := ResolveQuestionPaths(QUESTIONS[7], Some(Selection(Some(a), Some(b))));
      r.pathA != r.pathB &&
      (a == b ==> r.pathB == "Living with \U{2026}")
  {
    LivingQuestion();
    WithPhraseOfOptions();
  }

  /** Every other question has two fixed paths. */
  lemma OtherQuestionsFixed(i: nat)
    requires i < |QUESTIONS| && i != 7
    ensures QUESTIONS[i].pathA.Fixed? && QUESTIONS[i].pathB.Fixed? && QUESTIONS[i].mode == None
    ensures QUESTIONS[i].id != "home-live-alone-vs-with"
  {
  }

  /** Only the living-arrangement question reads the selection: for any other id the paths
    * are the same whatever is picked. */
  lemma GetPathsIgnoresSelection(id: Option<string>, s1: Option<Selection>, s2: Option<Selection>)
    requires id != Some("home-live-alone-vs-with")
    ensures GetPathsForIntention(id, s1) == GetPathsForIntention(id, s2)
  {
    if Truthy(id) {
      var f := FindQuestion(QUESTIONS, id.value);
      if f.Some? {
        var i :| 0 <= i < |QUESTIONS| && QUESTIONS[i] == f.value;
        if i == 7 {
          LivingQuestion();
          assert false;
        }
        OtherQuestionsFixed(i);
      }
    }
  }

  /** `getPathsForIntention` does not enforce distinct picks: the same pick on both sides
    * gives the same path twice. */
  lemma GetPathsKeepsEqualPicks(p: string)
    ensures GetPathsForIntention(Some("home-live-alone-vs-with"), Some(Selection(Some(p), Some(p)))) ==
            PathPair(WithPhrase(Some(p)), WithPhrase(Some(p)))
  {
    LivingQuestion();
    LivingQuestionFound();
    GetPathsOfFound("home-live-alone-vs-with", Some(Selection(Some(p), Some(p))), QUESTIONS[7]);
  }

  /** A found question's paths are resolved from the selection. */
  lemma GetPathsOfFound(id: string, sel: Option<Selection>, q: QuestionItem)
    requires id != "" && FindQuestion(QUESTIONS, id) == Some(q)
    ensures GetPathsForIntention(Some(id), sel) == PathPair(ResolvePath(q.pathA, sel), ResolvePath(q.pathB, sel))
  {
  }

  /** `resolveQuestionPaths` does: the same pick on both sides leaves B's path open. */
  lemma ResolveDropsEqualPicks(p: string)
    ensures ResolveQuestionPaths(QUESTIONS[7], Some(Selection(Some(p), Some(p)))) ==
            PathPair(WithPhrase(Some(p)), "Living with \U{2026}")
  {
    LivingQuestion();
  }

  /** The living-arrangement id finds the living-arrangement question. */
  lemma LivingQuestionFound()
    ensures FindQuestion(QUESTIONS, "home-live-alone-vs-with") == Some(QUESTIONS[7])
  {
    LivingQuestion();
    FindQuestionAt(QUESTIONS, 7);
  }

  /** A question is found at the first position holding its id. */
  lemma {:induction false} FindQuestionAt(qs: seq<QuestionItem>, j: nat)
    requires j < |qs|
    requires forall i :: 0 <= i < j ==> qs[i].id != qs[j].id
    ensures FindQuestion(qs, qs[j].id) == Some(qs[j])
    decreases j
  {
    if j > 0 {
      FindQuestionAt(qs[1..], j - 1);
    }
  }
}
