/** The card catalog and the image paths of a card's front and back. */
module Cards {
  import opened Common
  import opened Background

  /** A card of the catalog: id, display name, optional suit and optional number. */
  datatype CardMeta = CardMeta(id: string, name: string, suit: Option<string>, number: Option<int>)

  /** Every card of the catalog is numbered, has no suit, and has the id `<number>.<slug>`. */
  function Numbered(k: nat, slug: string, name: string): (c: CardMeta)
    ensures c.number == Some(k) && WellNumbered(c)
  {
    var p := NatToString(k) + ".";
    assert (p + slug)[..|p|] == p;
    CardMeta(p + slug, name, None, Some(k))
  }

  // The catalog is written as its five runs: the major cards and the four suits.

  /** The twenty-two major cards, 0 to 21. */
  const MAJOR_ARCANA: seq<CardMeta> := [
    Numbered(0, "TheOne", "The One"),
    Numbered(1, "TheEnchanter", "The Enchanter"),
    Numbered(2, "TheEnchantress", "The Enchantress"),
    Numbered(3, "TheGreatMother", "The Great Mother"),
    Numbered(4, "TheGreatFather", "The Great Father"),
    Numbered(5, "TheSage", "The Sage"),
    Numbered(6, "TheBeloved", "The Beloved"),
    Numbered(7, "TheMarionette", "The Marionette"),
    Numbered(8, "LadyLeo", "Lady Leo"),
    Numbered(9, "ThePearl", "The Pearl"),
    Numbered(10, "TheFates", "The Fates"),
    Numbered(11, "TheScales", "The Scales"),
    Numbered(12, "TheMime", "The Mime"),
    Numbered(13, "Birth", "Birth"),
    Numbered(14, "Spellcasting", "Spellcasting"),
    Numbered(15, "Vices", "Vices"),
    Numbered(16, "TheFortress", "The Fortress"),
    Numbered(17, "Healing", "Healing"),
    Numbered(18, "Illusion", "Illusion"),
    Numbered(19, "Soul", "Soul"),
    Numbered(20, "Awakening", "Awakening"),
    Numbered(21, "TheUniverse", "The Universe")
  ]

  /** The Sparks, 22 to 31. */
  const SPARKS: seq<CardMeta> := [
    Numbered(22, "OneOfSparks", "One of Sparks"),
    Numbered(23, "TwoOfSparks", "Two of Sparks"),
    Numbered(24, "ThreeOfSparks", "Three of Sparks"),
    Numbered(25, "FourOfSparks", "Four of Sparks"),
    Numbered(26, "FiveOfSparks", "Five of Sparks"),
    Numbered(27, "SixOfSparks", "Six of Sparks"),
    Numbered(28, "SevenOfSparks", "Seven of Sparks"),
    Numbered(29, "EightOfSparks", "Eight of Sparks"),
    Numbered(30, "NineOfSparks", "Nine of Sparks"),
    Numbered(31, "TenOfSparks", "Ten of Sparks")
  ]

  /** The Tears, 32 to 41. */
  const TEARS: seq<CardMeta> := [
    Numbered(32, "OneOfTears", "One of Tears"),
    Numbered(33, "TwoOfTears", "Two of Tears"),
    Numbered(34, "ThreeOfTears", "Three of Tears"),
    Numbered(35, "FourOfTears", "Four of Tears"),
    Numbered(36, "FiveOfTears", "Five of Tears"),
    Numbered(37, "SixOfTears", "Six of Tears"),
    Numbered(38, "SevenOfTears", "Seven of Tears"),
    Numbered(39, "EightOfTears", "Eight of Tears"),
    Numbered(40, "NineOfTears", "Nine of Tears"),
    Numbered(41, "TenOfTears", "Ten of Tears")
  ]

  /** The Soil, 42 to 51. */
  const SOIL: seq<CardMeta> := [
    Numbered(42, "OneOfSoil", "One of Soil"),
    Numbered(43, "TwoOfSoil", "Two of Soil"),
    Numbered(44, "ThreeOfSoil", "Three of Soil"),
    Numbered(45, "FourOfSoil", "Four of Soil"),
    Numbered(46, "FiveOfSoil", "Five of Soil"),
    Numbered(47, "SixOfSoil", "Six of Soil"),
    Numbered(48, "SevenOfSoil", "Seven of Soil"),
    Numbered(49, "EightOfSoil", "Eight of Soil"),
    Numbered(50, "NineOfSoil", "Nine of Soil"),
    Numbered(51, "TenOfSoil", "Ten of Soil")
  ]

  /** The Whispers, 52 to 61. */
  const WHISPERS: seq<CardMeta> := [
    Numbered(52, "OneOfWhispers", "One of Whispers"),
    Numbered(53, "TwoOfWhispers", "Two of Whispers"),
    Numbered(54, "ThreeOfWhispers", "Three of Whispers"),
    Numbered(55, "FourOfWhispers", "Four of Whispers"),
    Numbered(56, "FiveOfWhispers", "Five of Whispers"),
    Numbered(57, "SixOfWhispers", "Six of Whispers"),
    Numbered(58, "SevenOfWhispers", "Seven of Whispers"),
    Numbered(59, "EightOfWhispers", "Eight of Whispers"),
    Numbered(60, "NineOfWhispers", "Nine of Whispers"),
    Numbered(61, "TenOfWhispers", "Ten of Whispers")
  ]

  /** `CARDS_CATALOG`: the sixty-two cards of the deck in their order. */
  const CARDS_CATALOG: seq<CardMeta> := MAJOR_ARCANA + SPARKS + TEARS + SOIL + WHISPERS

  // ---------------------------------------------------------------------------------------
  // Numbered ids

  function DigitChar(d: nat): (c: char)
    requires d < 10
    ensures '0' <= c <= '9'
  {
    ('0' as int + d) as char
  }

  /** The decimal numeral of `n`, as `String(n)` writes it. */
  function NatToString(n: nat): (s: string)
    ensures |s| > 0 && forall i :: 0 <= i < |s| ==> '0' <= s[i] <= '9'
  {
    if n < 10 then [DigitChar(n)] else NatToString(n / 10) + [DigitChar(n % 10)]
  }

  /** The value of a numeral. */
  function DigitsValue(s: string): nat
    requires forall i :: 0 <= i < |s| ==> '0' <= s[i] <= '9'
  {
    if |s| == 0 then 0 else DigitsValue(s[..|s| - 1]) * 10 + (s[|s| - 1] as int - '0' as int)
  }

  /** Reading a numeral back gives the number. */
  lemma {:induction false} NatToStringValue(n: nat)
    ensures DigitsValue(NatToString(n)) == n
  {
    if n >= 10 {
      var s := NatToString(n);
      assert s[..|s| - 1] == NatToString(n / 10);
      NatToStringValue(n / 10);
    }
  }

  /** Different numbers have different numerals. */
  lemma NatToStringInjective(m: nat, n: nat)
    requires NatToString(m) == NatToString(n)
    ensures m == n
  {
    NatToStringValue(m);
    NatToStringValue(n);
  }

  predicate StartsWith(s: string, p: string)
  {
    |p| <= |s| && s[..|p|] == p
  }

  /** A card whose id starts with its number and a dot. */
  predicate WellNumbered(c: CardMeta)
  {
    c.number.Some? && c.number.value >= 0 && StartsWith(c.id, NatToString(c.number.value) + ".")
  }

  /** The major cards are numbered 0 to 21. */
  lemma MajorsNumbered()
    ensures forall i :: 0 <= i < |MAJOR_ARCANA| ==> MAJOR_ARCANA[i].number == Some(i) && WellNumbered(MAJOR_ARCANA[i])
  {
  }

  /** The Sparks are numbered 22 to 31. */
  lemma SparksNumbered()
    ensures forall i :: 0 <= i < |SPARKS| ==> SPARKS[i].number == Some(22 + i) && WellNumbered(SPARKS[i])
  {
  }

  /** The Tears are numbered 32 to 41. */
  lemma TearsNumbered()
    ensures forall i :: 0 <= i < |TEARS| ==> TEARS[i].number == Some(32 + i) && WellNumbered(TEARS[i])
  {
  }

  /** The Soil cards are numbered 42 to 51. */
  lemma SoilNumbered()
    ensures forall i :: 0 <= i < |SOIL| ==> SOIL[i].number == Some(42 + i) && WellNumbered(SOIL[i])
  {
  }

  /** The Whispers are numbered 52 to 61. */
  lemma WhispersNumbered()
    ensures forall i :: 0 <= i < |WHISPERS| ==> WHISPERS[i].number == Some(52 + i) && WellNumbered(WHISPERS[i])
  {
  }

  /** Two ids that start with different numbers followed by a dot differ. */
  lemma NumberedIdsDiffer(x: string, i: nat, y: string, j: nat)
    requires StartsWith(x, NatToString(i) + ".") && StartsWith(y, NatToString(j) + ".")
    requires i != j
    ensures x != y
  {
    var a, b := NatToString(i), NatToString(j);
    if x == y {
      assert x[|a|] == '.' && y[|b|] == '.';
      assert |a| == |b|;
      assert a == x[..|a|] && b == y[..|b|];
      NatToStringInjective(i, j);
    }
  }

  /** The catalog has sixty-two cards; the card at position `k` has number `k` and an id
    * starting with `k.`; so no two cards share an id. */
  lemma CatalogNumbered()
    ensures |CARDS_CATALOG| == 62
    ensures forall k :: 0 <= k < 62 ==> CARDS_CATALOG[k].number == Some(k)
    ensures PositionNumbered(CARDS_CATALOG)
    ensures forall i, j :: 0 <= i < j < 62 ==> CARDS_CATALOG[i].id != CARDS_CATALOG[j].id
  {
    MajorsNumbered();
    SparksNumbered();
    TearsNumbered();
    SoilNumbered();
    WhispersNumbered();
    forall k | 0 <= k < 62
      ensures CARDS_CATALOG[k].number == Some(k) && StartsWith(CARDS_CATALOG[k].id, NatToString(k) + ".")
    {
      if k < 22 {
        assert CARDS_CATALOG[k] == MAJOR_ARCANA[k];
      } else if k < 32 {
        assert CARDS_CATALOG[k] == SPARKS[k - 22];
      } else if k < 42 {
        assert CARDS_CATALOG[k] == TEARS[k - 32];
      } else if k < 52 {
        assert CARDS_CATALOG[k] == SOIL[k - 42];
      } else {
        assert CARDS_CATALOG[k] == WHISPERS[k - 52];
      }
    }
    PositionNumberedDistinct(CARDS_CATALOG);
  }

  /** The id of the card at position `k` starts with `k` and a dot. */
  predicate PositionNumbered(cs: seq<CardMeta>)
  {
    forall k :: 0 <= k < |cs| ==> StartsWith(cs[k].id, NatToString(k) + ".")
  }

  /** Cards whose ids start with their positions have distinct ids. */
  lemma PositionNumberedDistinct(cs: seq<CardMeta>)
    requires PositionNumbered(cs)
    ensures forall i, j :: 0 <= i < j < |cs| ==> cs[i].id != cs[j].id
  {
    forall i, j | 0 <= i < j < |cs|
      ensures cs[i].id != cs[j].id
    {
      NumberedIdsDiffer(cs[i].id, i, cs[j].id, j);
    }
  }

  // ---------------------------------------------------------------------------------------
  // Image paths

  function ColorwayName(c: Colorway): string
  {
    if c == Pink then "pink" else "grey"
  }

  /** `frontSrcFor(id, colorway)`: `/cards/fronts/<colorway>/<id>.png`. */
  function FrontSrcFor(id: string, c: Colorway): string
  {
    "/cards/fronts/" + ColorwayName(c) + "/" + id + ".png"
  }

  /** `backSrcFor(colorway)`: the pink or the grey back. */
  function BackSrcFor(c: Colorway): string
  {
    var name := if c == Pink then "Pink-Back" else "Grey-Back";
    "/cards/backs/" + name + ".png"
  }

  /** A front path names its card and colorway: two cards or two colorways never share one. */
  lemma FrontSrcInjective(id1: string, c1: Colorway, id2: string, c2: Colorway)
    requires FrontSrcFor(id1, c1) == FrontSrcFor(id2, c2)
    ensures id1 == id2 && c1 == c2
  {
    var p := FrontSrcFor(id1, c1);
    assert |id1| == |id2|;
    assert p[14..18] == ColorwayName(c1) && p[14..18] == ColorwayName(c2);
    assert p[19..19 + |id1|] == id1 && p[19..19 + |id2|] == id2;
  }

  /** The backs: `/cards/backs/Pink-Back.png` and `/cards/backs/Grey-Back.png`. */
  lemma BackSrcCases()
    ensures BackSrcFor(Pink) == "/cards/backs/Pink-Back.png"
    ensures BackSrcFor(Grey) == "/cards/backs/Grey-Back.png"
  {
  }

  /** A back is never a front. */
  lemma BackIsNoFront(c: Colorway, id: string, d: Colorway)
    ensures BackSrcFor(c) != FrontSrcFor(id, d)
  {
    assert BackSrcFor(c)[7] == 'b' && FrontSrcFor(id, d)[7] == 'f';
  }
}
