/** The app's tarot store: the spread on the table, the cards assigned to its slots, the four
  * texts the user writes, the colorway and whether a deal is running. */
module TarotStore {
  import opened Common
  import opened Background
  import opened Spreads
  import opened Cards
  import LegacySpreads

  /** `SlotAssignment`: the card put in a slot, and whether it lies reversed. */
  datatype SlotAssignment = SlotAssignment(slotKey: string, cardId: string, reversed: bool)

  /** The fields of the store that its setters change. */
  datatype TarotState = TarotState(spread: Spread, assignments: seq<SlotAssignment>,
                                   question: string, focusText: string,
                                   choice1Text: string, choice2Text: string,
                                   colorway: Colorway, dealing: bool)

  /** `buildAllSpreads()`: the base spreads, then the horoscope spread starting at the season
    * of the day given as `month` and `day`. */
  function AllSpreads(baseSpreads: seq<Spread>, month: int, day: int): (all: seq<Spread>)
    ensures |all| == |baseSpreads| + 1 && all[..|baseSpreads|] == baseSpreads
    ensures all[|baseSpreads|] == LegacySpreads.HoroscopeSpreadDef(SeasonIndex(month, day))
  {
    baseSpreads + [LegacySpreads.HoroscopeSpreadDef(SeasonIndex(month, day))]
  }

  class Store {
    const allSpreads: seq<Spread>
    var spread: Spread
    var assignments: seq<SlotAssignment>
    var question: string
    var focusText: string
    var choice1Text: string
    var choice2Text: string
    var colorway: Colorway
    var dealing: bool

    function State(): TarotState
      reads this
    {
      TarotState(spread, assignments, question, focusText, choice1Text, choice2Text, colorway, dealing)
    }

    /** The store as created on the day `month`/`day`: every spread known, the first of them
      * on the table, nothing assigned, no text, the pink colorway and no deal running. */
    constructor (baseSpreads: seq<Spread>, month: int, day: int)
      ensures allSpreads == AllSpreads(baseSpreads, month, day)
      ensures State() == TarotState(allSpreads[0], [], "", "", "", "", Pink, false)
      ensures baseSpreads == [] ==> spread.id == "horoscope"
    {
      var season := CurrentSeasonIndex(month, day);
      var all := baseSpreads + [LegacySpreads.HoroscopeSpreadDef(season)];
      allSpreads := all;
      spread := all[0];
      assignments := [];
      question := "";
      focusText := "";
      choice1Text := "";
      choice2Text := "";
      colorway := Pink;
      dealing := false;
    }

    /** `setSpread(s)`: a new spread clears the assignments of the old one. */
    method SetSpread(s: Spread)
      modifies this`spread, this`assignments
      ensures State() == old(State()).(spread := s, assignments := [])
    {
      spread := s;
      assignments := [];
    }

    method SetAssignments(a: seq<SlotAssignment>)
      modifies this`assignments
      ensures State() == old(State()).(assignments := a)
    {
      assignments := a;
    }

    method SetDealing(v: bool)
      modifies this`dealing
      ensures State() == old(State()).(dealing := v)
    {
      dealing := v;
    }

    method SetQuestion(q: string)
      modifies this`question
      ensures State() == old(State()).(question := q)
    {
      question := q;
    }

    method SetFocusText(v: string)
      modifies this`focusText
      ensures State() == old(State()).(focusText := v)
    {
      focusText := v;
    }

    method SetChoice1Text(v: string)
      modifies this`choice1Text
      ensures State() == old(State()).(choice1Text := v)
    {
      choice1Text := v;
    }

    method SetChoice2Text(v: string)
      modifies this`choice2Text
      ensures State() == old(State()).(choice2Text := v)
    {
      choice2Text := v;
    }

    method SetColorway(c: Colorway)
      modifies this`colorway
      ensures State() == old(State()).(colorway := c)
    {
      colorway := c;
    }

    /** `resetTexts()`: the four texts cleared, the spread, the assignments, the colorway and
      * the deal kept. */
    method ResetTexts()
      modifies this`question, this`focusText, this`choice1Text, this`choice2Text
      ensures State() == old(State()).(question := "", focusText := "", choice1Text := "", choice2Text := "")
    {
      question := "";
      focusText := "";
      choice1Text := "";
      choice2Text := "";
    }
  }

  /** `cards.map(c => c.id)`. */
  function Ids(cards: seq<CardMeta>): (ids: seq<string>)
    ensures |ids| == |cards| && forall i :: 0 <= i < |cards| ==> ids[i] == cards[i].id
  {
    seq(|cards|, i requires 0 <= i < |cards| => cards[i].id)
  }

  /** `ALL_CARD_IDS`: the ids of the catalog, in catalog order. */
  const ALL_CARD_IDS: seq<string> := Ids(CARDS_CATALOG)

  /** There are sixty-two card ids, no two alike, and the id at position `k` starts with
    * `k` and a dot. */
  lemma AllCardIdsNumbered()
    ensures |ALL_CARD_IDS| == 62
    ensures IdsNumbered(ALL_CARD_IDS)
    ensures forall i, j :: 0 <= i < j < |ALL_CARD_IDS| ==> ALL_CARD_IDS[i] != ALL_CARD_IDS[j]
  {
    CatalogNumbered();
    IdsOfNumbered(CARDS_CATALOG);
  }

  /** The id at position `k` starts with `k` and a dot. */
  predicate IdsNumbered(ids: seq<string>)
  {
    forall k :: 0 <= k < |ids| ==> StartsWith(ids[k], NatToString(k) + ".")
  }

  /** The ids of cards numbered by their positions are numbered the same way, so no two
    * of them are alike. */
  lemma IdsOfNumbered(cs: seq<CardMeta>)
    requires PositionNumbered(cs)
    ensures IdsNumbered(Ids(cs))
    ensures forall i, j :: 0 <= i < j < |cs| ==> Ids(cs)[i] != Ids(cs)[j]
  {
    PositionNumberedDistinct(cs);
  }
}
