/** The older copy of the spread helpers. Its substitution, lookups, season search and
  * pros-and-cons spreads are the same code as the app's and share their definitions with
  * `Spreads`; only its horoscope spread differs: one layout of two rows, without profiles. */
module LegacySpreads {
  import opened Common
  import opened Profiles
  import opened Spreads

  /** `horoscopeSpreadDef(startFromSeason)`: the twelve signs from the season's sign on, in
    * two rows of six, untagged. */
  function HoroscopeSpreadDef(start: nat): (s: Spread)
    ensures |s.slots| == 12 && s.id == "horoscope" && s.categories == []
  {
    Spread("horoscope", "Horoscope (starts at current season)", HoroscopeRows(start), [])
  }

  /** The twelve slots start at the season's sign and follow the wheel; the first six sit at
    * y = 25 and the last six at y = 65, at x = (i + 1) * 100 / 7 within their row; each shows
    * the capitalised sign and is keyed by its lower case. */
  lemma HoroscopeShape(start: nat)
    requires start < 12
    ensures var r := HoroscopeSpreadDef(start).slots;
      forall i :: 0 <= i < 12 ==>
        r[i].idKey == SIGN_KEYS[WheelIndex(i, start)] && r[i].cardLabel == ZODIAC[WheelIndex(i, start)] &&
        r[i].yPerc == (if i < 6 then 25.0 else 65.0) &&
        r[i].xPerc == ((if i < 6 then i else i - 6) + 1) as real * 100.0 / 7.0 &&
        r[i].profile == None
  {
    HoroscopeRowsShape(start);
  }

  /** No two slots share a key. */
  lemma HoroscopeKeysDistinct(start: nat)
    requires start < 12
    ensures var r := HoroscopeSpreadDef(start).slots;
      forall i, j :: 0 <= i < j < 12 ==> r[i].idKey != r[j].idKey
  {
    SignKeysDistinct();
    var r := HoroscopeRows(start);
    forall i, j | 0 <= i < j < 12
      ensures r[i].idKey != r[j].idKey
    {
      RowSlotAt(start, i);
      RowSlotAt(start, j);
      assert WheelIndex(i, start) != WheelIndex(j, start);
    }
  }

  /** Every sign has a slot, keyed by its lower case and showing the sign. */
  lemma HoroscopeHoldsEverySign(start: nat)
    requires start < 12
    ensures var r := HoroscopeSpreadDef(start).slots;
      forall s :: 0 <= s < 12 ==> exists i :: 0 <= i < 12 && r[i].idKey == SIGN_KEYS[s] && r[i].cardLabel == ZODIAC[s]
  {
    var r := HoroscopeSpreadDef(start).slots;
    assert r == HoroscopeRows(start);
    forall s | 0 <= s < 12
      ensures exists i :: 0 <= i < 12 && r[i].idKey == SIGN_KEYS[s] && r[i].cardLabel == ZODIAC[s]
    {
      var i := if s >= start then s - start else s + 12 - start;
      RowSlotAt(start, i);
      assert WheelIndex(i, start) == s;
      assert r[i].idKey == SIGN_KEYS[s] && r[i].cardLabel == ZODIAC[s];
    }
    assert forall s :: 0 <= s < 12 ==> exists i :: 0 <= i < 12 && r[i].idKey == SIGN_KEYS[s] && r[i].cardLabel == ZODIAC[s];
  }

  /** The app's desktop and tablet layouts are this layout, tagged with their profile; so
    * resolving the app's horoscope spread for either profile gives these slots. */
  lemma AppRowsAreLegacyLayout(start: nat)
    requires start < 12
    ensures Tag(HoroscopeSpreadDef(start).slots, Desktop) == HoroscopeBlock(start, Desktop)
    ensures Tag(HoroscopeSpreadDef(start).slots, Tablet) == HoroscopeBlock(start, Tablet)
    ensures SlotsForProfile(Spreads.HoroscopeSpreadDef(start).slots, Desktop) == Tag(HoroscopeSpreadDef(start).slots, Desktop)
  {
    HoroscopeSlotsForProfile(start, Desktop);
  }
}
