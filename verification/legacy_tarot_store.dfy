/** The older tarot store: the same spread, assignment and text fields as the app's store,
  * without a colorway, over the spread and card lists of its own store modules. */
module LegacyTarotStore {
  import opened Common
  import opened Spreads
  import TarotStore

  /** The older card record: like the catalog's, with the path of its front image. */
  datatype StoreCard = StoreCard(id: string, name: string, suit: Option<string>, number: Option<int>,
                                 frontSrc: string)

  /** The two cards of the older card list. */
  const CARDS: seq<StoreCard> := [
    StoreCard("00-fool", "The Fool", None, None, "/cards/fronts/00-fool.png"),
    StoreCard("01-magician", "The Magician", None, None, "/cards/fronts/01-magician.png")
  ]

  /** The fields of the store that its setters change. `spreads[0]` is `undefined` when the
    * spread list is empty, so the spread is optional here. */
  datatype LegacyState = LegacyState(spread: Option<Spread>, assignments: seq<TarotStore.SlotAssignment>,
                                     question: string, focusText: string,
                                     choice1Text: string, choice2Text: string, dealing: bool)

  class Store {
    const allSpreads: seq<Spread>
    var spread: Option<Spread>
    var assignments: seq<TarotStore.SlotAssignment>
    var question: string
    var focusText: string
    var choice1Text: string
    var choice2Text: string
    var dealing: bool

    function State(): LegacyState
      reads this
    {
      LegacyState(spread, assignments, question, focusText, choice1Text, choice2Text, dealing)
    }

    /** The store over the spread list `spreads` and the horoscope spread `horoscope`: the
      * first of `spreads` on the table (none when there is none, even though the horoscope
      * follows them), nothing assigned, no text and no deal running. */
    constructor (spreads: seq<Spread>, horoscope: Spread)
      ensures allSpreads == spreads + [horoscope]
      ensures spreads != [] ==> State() == LegacyState(Some(spreads[0]), [], "", "", "", "", false)
      ensures spreads == [] ==> State() == LegacyState(None, [], "", "", "", "", false)
    {
      allSpreads := spreads + [horoscope];
      spread := if spreads == [] then None else Some(spreads[0]);
      assignments := [];
      question := "";
      focusText := "";
      choice1Text := "";
      choice2Text := "";
      dealing := false;
    }

    /** `setSpread(s)`: a new spread clears the assignments of the old one. */
    method SetSpread(s: Spread)
      modifies this`spread, this`assignments
      ensures State() == old(State()).(spread := Some(s), assignments := [])
    {
      spread := Some(s);
      assignments := [];
    }

    method SetAssignments(a: seq<TarotStore.SlotAssignment>)
      modifies this`assignments
      ensures State() == old(State()).(assignments := a)
    {
      assignments := a;
    }

    method SetDealing(v: bool)
      modifies this`dealing
      ensures State() == old(State()).(dealing := v)
    {
      dealing := v;
    }

    method SetQuestion(q: string)
      modifies this`question
      ensures State() == old(State()).(question := q)
    {
      question := q;
    }

    method SetFocusText(v: string)
      modifies this`focusText
      ensures State() == old(State()).(focusText := v)
    {
      focusText := v;
    }

    method SetChoice1Text(v: string)
      modifies this`choice1Text
      ensures State() == old(State()).(choice1Text := v)
    {
      choice1Text := v;
    }

    method SetChoice2Text(v: string)
      modifies this`choice2Text
      ensures State() == old(State()).(choice2Text := v)
    {
      choice2Text := v;
    }

    /** `resetTexts()`: the four texts cleared, everything else kept. */
    method ResetTexts()
      modifies this`question, this`focusText, this`choice1Text, this`choice2Text
      ensures State() == old(State()).(question := "", focusText := "", choice1Text := "", choice2Text := "")
    {
      question := "";
      focusText := "";
      choice1Text := "";
      choice2Text := "";
    }
  }

  /** `CARDS.map(c => c.id)` over any card list. */
  function CardIds(cards: seq<StoreCard>): (ids: seq<string>)
    ensures |ids| == |cards| && forall i :: 0 <= i < |cards| ==> ids[i] == cards[i].id
  {
    seq(|cards|, i requires 0 <= i < |cards| => cards[i].id)
  }

  /** `ALL_CARD_IDS`: the ids of the older card list, in its order. */
  const ALL_CARD_IDS: seq<string> := CardIds(CARDS)

  /** The ids of the older list are the fool's and the magician's, in that order. */
  lemma AllCardIdsOfList()
    ensures ALL_CARD_IDS == ["00-fool", "01-magician"]
  {
  }

  /** An id occurs among the card ids exactly when some card of the list has it. */
  lemma {:induction false} CardIdsMembership(cards: seq<StoreCard>, id: string)
    ensures id in CardIds(cards) <==> exists c :: c in cards && c.id == id
  {
    var ids := CardIds(cards);
    if id in ids {
      var i :| 0 <= i < |ids| && ids[i] == id;
      assert cards[i] in cards;
    }
    if exists c :: c in cards && c.id == id {
      var c :| c in cards && c.id == id;
      var i :| 0 <= i < |cards| && cards[i] == c;
      assert ids[i] == id;
    }
  }
}
