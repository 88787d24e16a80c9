/** The spread and intention helpers of the app: `${name}` substitution in intention labels,
  * the lookups over a spread's categories, the profile-specific slot resolution, the zodiac
  * season of a date, and the spreads built at run time (the horoscope wheel and the two
  * pros-and-cons spreads). */
module Spreads {
  import opened Common
  import opened Profiles

  /** `"simple"`, or `"binary"` ("this or that") with its two path names. */
  datatype IntentionKind = Simple | Binary(pathA: string, pathB: string)

  /** An intention of a category: a stable id, its label `text` that may hold `${relationshipName}`,
    * and the optional `requiresName` flag (absent read as false). */
  datatype Intention = Intention(id: string, text: string, requiresName: bool, kind: IntentionKind)

  datatype Category = Category(id: string, title: string, intentions: seq<Intention>)

  /** A slot of a spread: its key, its label, its place in percent of the screen, an optional
    * angle and an optional profile tag (an untagged slot serves every profile). */
  datatype Slot = Slot(idKey: string, cardLabel: string, xPerc: real, yPerc: real,
                       angle: Option<real>, profile: Option<ProfileId>)

  datatype Spread = Spread(id: string, title: string, slots: seq<Slot>, categories: seq<Category>)

  // ---------------------------------------------------------------------------------------
  // `${name}` placeholders

  /** `\w`: an ASCII letter, a digit or `_`. */
  predicate IsWordChar(c: char)
  {
    'a' <= c <= 'z' || 'A' <= c <= 'Z' || '0' <= c <= '9' || c == '_'
  }

  predicate IsWord(k: string)
  {
    |k| > 0 && forall j :: 0 <= j < |k| ==> IsWordChar(k[j])
  }

  /** The length of the run of word characters that starts at `i`. */
  function WordRun(s: string, i: nat): (n: nat)
    requires i <= |s|
    ensures i + n <= |s|
    ensures forall j :: i <= j < i + n ==> IsWordChar(s[j])
    ensures i + n == |s| || !IsWordChar(s[i + n])
    decreases |s| - i
  {
    if i < |s| && IsWordChar(s[i]) then 1 + WordRun(s, i + 1) else 0
  }

  /** The name of the placeholder `s` starts with, if `/\$\{(\w+)\}/` matches at its start:
    * `$`, `{`, the longest run of word characters (at least one), then `}`. */
  function PlaceholderAt(s: string): (r: Option<string>)
    ensures r.Some? ==> IsWord(r.value) && |r.value| + 3 <= |s| && s[..|r.value| + 3] == "${" + r.value + "}"
  {
    if 2 <= |s| && s[0] == '$' && s[1] == '{' then
      var n := WordRun(s, 2);
      if 0 < n && 2 + n < |s| && s[2 + n] == '}' then Some(s[2..2 + n]) else None
    else None
  }

  /** A string that starts with a well-formed placeholder is matched there, with its name. */
  lemma PlaceholderAtLiteral(k: string, t: string)
    requires IsWord(k)
    ensures PlaceholderAt("${" + k + "}" + t) == Some(k)
  {
    var s := "${" + k + "}" + t;
    assert forall j :: 0 <= j < |k| ==> s[2 + j] == k[j];
    assert s[2 + |k|] == '}';
    assert WordRun(s, 2) == |k|;
    assert s[2..2 + |k|] == k;
  }

  /** `s.replace(/\$\{(\w+)\}/g, (_, k) => fill(k))`: scanning from the left, each
    * placeholder is replaced by `fill` of its name and every other character is copied. */
  function Replace(s: string, fill: string -> string): string
    decreases |s|
  {
    if |s| == 0 then ""
    else match PlaceholderAt(s)
      case Some(k) => fill(k) + Replace(s[|k| + 3..], fill)
      case None => [s[0]] + Replace(s[1..], fill)
  }

  /** The names of the placeholders that the scan of `Replace` replaces. */
  function Names(s: string): set<string>
    decreases |s|
  {
    if |s| == 0 then {}
    else match PlaceholderAt(s)
      case Some(k) => {k} + Names(s[|k| + 3..])
      case None => Names(s[1..])
  }

  /** `vars[k] ?? "_____"`. */
  function BlankFill(vars: map<string, string>): string -> string
  {
    k => if k in vars then vars[k] else "_____"
  }

  /** `substituteVars(text, vars)`. */
  function SubstituteVars(text: string, vars: map<string, string>): string
  {
    Replace(text, BlankFill(vars))
  }

  /** Text without placeholders comes out of the substitution unchanged, whatever fills. */
  lemma {:induction false} NoPlaceholdersUnchanged(s: string, fill: string -> string)
    requires Names(s) == {}
    ensures Replace(s, fill) == s
    decreases |s|
  {
    if |s| > 0 {
      match PlaceholderAt(s)
      case Some(k) =>
        assert false;
      case None =>
        NoPlaceholdersUnchanged(s[1..], fill);
    }
  }

  /** Only the fills of the placeholders present matter: two fills that agree on them give
    * the same text. */
  lemma {:induction false} FillsAgree(s: string, f: string -> string, g: string -> string)
    requires forall k :: k in Names(s) ==> f(k) == g(k)
    ensures Replace(s, f) == Replace(s, g)
    decreases |s|
  {
    if |s| > 0 {
      match PlaceholderAt(s)
      case Some(k) =>
        var rest := s[|k| + 3..];
        assert Names(s) == {k} + Names(rest);
        FillsAgree(rest, f, g);
        assert Replace(s, f) == f(k) + Replace(rest, f);
        assert Replace(s, g) == g(k) + Replace(rest, g);
      case None =>
        FillsAgree(s[1..], f, g);
    }
  }

  /** Text before the first `$` is copied as it is and adds no placeholder. */
  lemma {:induction false} CopiedPrefix(p: string, t: string, fill: string -> string)
    requires '$' !in p
    ensures Replace(p + t, fill) == p + Replace(t, fill)
    ensures Names(p + t) == Names(t)
    decreases |p|
  {
    var s := p + t;
    if |p| > 0 {
      assert s[0] == p[0] && s[0] != '$';
      assert PlaceholderAt(s) == None;
      assert s[1..] == p[1..] + t;
      CopiedPrefix(p[1..], t, fill);
      assert Replace(s, fill) == [p[0]] + Replace(s[1..], fill);
      assert p == [p[0]] + p[1..];
    } else {
      assert s == t;
    }
  }

  /** A label with one placeholder: the placeholder, and nothing else, is replaced by the
    * fill of its name. */
  lemma OnePlaceholder(p: string, k: string, q: string, fill: string -> string)
    requires '$' !in p && '$' !in q && IsWord(k)
    ensures Replace(p + "${" + k + "}" + q, fill) == p + fill(k) + q
    ensures Names(p + "${" + k + "}" + q) == {k}
  {
    var rest := "${" + k + "}" + q;
    assert p + "${" + k + "}" + q == p + rest;
    CopiedPrefix(p, rest, fill);
    PlaceholderAtLiteral(k, q);
    assert rest[|k| + 3..] == q;
    CopiedPrefix(q, "", fill);
    assert q + "" == q;
  }

  /** `t` occurs in `s` at position `i`. */
  predicate OccursAt(s: string, t: string, i: nat)
  {
    i + |t| <= |s| && s[i..i + |t|] == t
  }

  /** `t` occurs in `s`. */
  predicate Contains(s: string, t: string)
  {
    exists i: nat :: i <= |s| && OccursAt(s, t, i)
  }

  /** An occurrence in a suffix is an occurrence in the whole text. */
  lemma OccursShift(s: string, t: string, m: nat, i: nat)
    requires m <= |s| && OccursAt(s[m..], t, i)
    ensures OccursAt(s, t, m + i)
  {
    assert s[m + i..m + i + |t|] == s[m..][i..i + |t|];
  }

  /** A placeholder found by the scan occurs in the text, at the position returned. */
  lemma {:induction false} NameOccurs(s: string, k: string) returns (i: nat)
    requires k in Names(s)
    ensures i <= |s| && OccursAt(s, "${" + k + "}", i)
    decreases |s|
  {
    var t := "${" + k + "}";
    assert |s| > 0;
    match PlaceholderAt(s)
    case Some(k') =>
      var m := |k'| + 3;
      if k' == k {
        assert s[0..0 + |t|] == t;
        i := 0;
      } else {
        assert k in Names(s[m..]);
        var j := NameOccurs(s[m..], k);
        OccursShift(s, t, m, j);
        i := m + j;
      }
    case None =>
      assert k in Names(s[1..]);
      var j := NameOccurs(s[1..], k);
      OccursShift(s, t, 1, j);
      i := 1 + j;
  }

  /** An occurrence of a well-formed placeholder is found by the scan: no earlier match can
    * swallow its `$`, since a match holds no `$` after its first character. */
  lemma {:induction false} OccurrenceFound(s: string, k: string, i: nat)
    requires IsWord(k) && i + |k| + 3 <= |s| && s[i..i + |k| + 3] == "${" + k + "}"
    ensures k in Names(s)
    decreases |s|
  {
    var t := "${" + k + "}";
    if i == 0 {
      assert s == t + s[|t|..];
      PlaceholderAtLiteral(k, s[|t|..]);
    } else {
      assert s[i] == t[0] == '$';
      match PlaceholderAt(s)
      case Some(k') =>
        var m := |k'| + 3;
        assert s[m..][i - m..i - m + |t|] == t;
        OccurrenceFound(s[m..], k, i - m);
      case None =>
        assert s[1..][i - 1..i - 1 + |t|] == t;
        OccurrenceFound(s[1..], k, i - 1);
    }
  }

  /** A well-formed placeholder occurs in a text exactly when the scan replaces it. */
  lemma PlaceholderOccursIff(s: string, k: string)
    requires IsWord(k)
    ensures Contains(s, "${" + k + "}") <==> k in Names(s)
  {
    if k in Names(s) {
      var i := NameOccurs(s, k);
    }
    if Contains(s, "${" + k + "}") {
      var i: nat :| i <= |s| && OccursAt(s, "${" + k + "}", i);
      OccurrenceFound(s, k, i);
    }
  }

  /** `relationshipName` is a name the placeholder pattern matches. */
  lemma RelationshipNameIsWord()
    ensures IsWord("relationshipName")
  {
    var k := "relationshipName";
    assert IsWordChar(k[0]) && IsWordChar(k[1]) && IsWordChar(k[2]) && IsWordChar(k[3]) &&
           IsWordChar(k[4]) && IsWordChar(k[5]) && IsWordChar(k[6]) && IsWordChar(k[7]) &&
           IsWordChar(k[8]) && IsWordChar(k[9]) && IsWordChar(k[10]) && IsWordChar(k[11]) &&
           IsWordChar(k[12]) && IsWordChar(k[13]) && IsWordChar(k[14]) && IsWordChar(k[15]);
  }

  /** `needsRelationshipName(i)`: the flag, or the label mentions `${relationshipName}`. */
  predicate NeedsRelationshipName(i: Intention)
  {
    i.requiresName || Contains(i.text, "${relationshipName}")
  }

  /** An intention needs the relationship name exactly when it is flagged or the substitution
    * of its label would fill a `relationshipName` placeholder. */
  lemma NeedsNameIff(i: Intention)
    ensures NeedsRelationshipName(i) <==> i.requiresName || "relationshipName" in Names(i.text)
  {
    var k := "relationshipName";
    RelationshipNameIsWord();
    assert "${" + k + "}" == "${relationshipName}";
    PlaceholderOccursIff(i.text, k);
  }

  // ---------------------------------------------------------------------------------------
  // Lookups

  /** `xs.find(i => i.id === id)`. */
  function FindIntention(xs: seq<Intention>, id: string): (r: Option<Intention>)
    ensures r.Some? ==> r.value in xs && r.value.id == id
    ensures r.None? ==> forall x :: x in xs ==> x.id != id
  {
    if xs == [] then None
    else if xs[0].id == id then Some(xs[0])
    else FindIntention(xs[1..], id)
  }

  /** The intention found is the first one with the id, as `find` scans left to right. */
  lemma {:induction false} FindIntentionFirst(xs: seq<Intention>, id: string, j: nat)
    requires j < |xs| && xs[j].id == id
    requires forall i :: 0 <= i < j ==> xs[i].id != id
    ensures FindIntention(xs, id) == Some(xs[j])
    decreases j
  {
    if j > 0 {
      FindIntentionFirst(xs[1..], id, j - 1);
    }
  }

  /** `getIntentionById(spread, id)`: the first category (in order) holding the id gives its
    * first intention with that id. */
  function IntentionIn(cats: seq<Category>, id: string): (r: Option<Intention>)
    ensures r.Some? ==> r.value.id == id && exists c :: c in cats && r.value in c.intentions
    ensures r.None? ==> forall c, x :: c in cats && x in c.intentions ==> x.id != id
  {
    if cats == [] then None
    else match FindIntention(cats[0].intentions, id)
      case Some(x) => Some(x)
      case None => IntentionIn(cats[1..], id)
  }

  function GetIntentionById(spread: Spread, id: string): Option<Intention>
  {
    IntentionIn(spread.categories, id)
  }

  /** Every intention of the categories, category by category. */
  function AllIntentions(cats: seq<Category>): seq<Intention>
  {
    if cats == [] then [] else cats[0].intentions + AllIntentions(cats[1..])
  }

  lemma {:induction false} FindIntentionConcat(a: seq<Intention>, b: seq<Intention>, id: string)
    ensures FindIntention(a + b, id) == if FindIntention(a, id).Some? then FindIntention(a, id) else FindIntention(b, id)
    decreases |a|
  {
    if a != [] {
      assert (a + b)[1..] == a[1..] + b;
      FindIntentionConcat(a[1..], b, id);
    } else {
      assert a + b == b;
    }
  }

  /** The nested lookup finds what a lookup over all intentions in category order finds. */
  lemma {:induction false} IntentionInIsFirstOverall(cats: seq<Category>, id: string)
    ensures IntentionIn(cats, id) == FindIntention(AllIntentions(cats), id)
    decreases |cats|
  {
    if cats != [] {
      FindIntentionConcat(cats[0].intentions, AllIntentions(cats[1..]), id);
      IntentionInIsFirstOverall(cats[1..], id);
    }
  }

  /** `getSpreadById(id, spreads)`: the first spread with that id. */
  function FindSpread(spreads: seq<Spread>, id: string): (r: Option<Spread>)
    ensures r.Some? ==> r.value in spreads && r.value.id == id
    ensures r.None? ==> forall s :: s in spreads ==> s.id != id
  {
    if spreads == [] then None
    else if spreads[0].id == id then Some(spreads[0])
    else FindSpread(spreads[1..], id)
  }

  /** The spread found is the first one with the id. */
  lemma {:induction false} FindSpreadFirst(spreads: seq<Spread>, id: string, j: nat)
    requires j < |spreads| && spreads[j].id == id
    requires forall i :: 0 <= i < j ==> spreads[i].id != id
    ensures FindSpread(spreads, id) == Some(spreads[j])
    decreases j
  {
    if j > 0 {
      FindSpreadFirst(spreads[1..], id, j - 1);
    }
  }

  datatype Paths = Paths(pathA: string, pathB: string)

  /** The paths of the first category whose first intention with the id is binary. */
  function BinaryPathsIn(cats: seq<Category>, id: string): Option<Paths>
  {
    if cats == [] then None
    else match FindIntention(cats[0].intentions, id)
      case Some(Intention(_, _, _, Binary(a, b))) => Some(Paths(a, b))
      case _ => BinaryPathsIn(cats[1..], id)
  }

  /** The same search over the categories of every spread, in order. */
  function BinaryPathsInSpreads(spreads: seq<Spread>, id: string): Option<Paths>
  {
    if spreads == [] then None
    else match BinaryPathsIn(spreads[0].categories, id)
      case Some(p) => Some(p)
      case None => BinaryPathsInSpreads(spreads[1..], id)
  }

  /** `getPathsForIntention(id)` over the spread list `spreads`. */
  function GetPathsForIntention(spreads: seq<Spread>, id: string): Paths
  {
    BinaryPathsInSpreads(spreads, id).GetOr(Paths("Path A", "Path B"))
  }

  /** A category "offers" paths for an id when its first intention with that id is binary
    * with those paths. */
  predicate Offers(c: Category, id: string, p: Paths)
  {
    var f := FindIntention(c.intentions, id);
    f.Some? && f.value.kind == Binary(p.pathA, p.pathB)
  }

  lemma {:induction false} BinaryPathsInSound(cats: seq<Category>, id: string)
    ensures BinaryPathsIn(cats, id).Some? ==> exists c :: c in cats && Offers(c, id, BinaryPathsIn(cats, id).value)
    ensures BinaryPathsIn(cats, id).None? ==> forall c, p :: c in cats ==> !Offers(c, id, p)
    decreases |cats|
  {
    if cats != [] {
      BinaryPathsInSound(cats[1..], id);
      match FindIntention(cats[0].intentions, id)
      case Some(Intention(_, _, _, Binary(a, b))) =>
        assert Offers(cats[0], id, Paths(a, b));
      case _ =>
        assert forall p :: !Offers(cats[0], id, p);
        assert forall c :: c in cats ==> c == cats[0] || c in cats[1..];
    }
  }

  /** The paths returned are those of a binary intention with the id, found first in its
    * category; without one anywhere, they are "Path A" and "Path B". */
  lemma {:induction false} GetPathsForIntentionSound(spreads: seq<Spread>, id: string)
    ensures var r := GetPathsForIntention(spreads, id);
      (BinaryPathsInSpreads(spreads, id).Some? ==> exists s, c :: s in spreads && c in s.categories && Offers(c, id, r)) &&
      (BinaryPathsInSpreads(spreads, id).None? ==>
         r == Paths("Path A", "Path B") && forall s, c, p :: s in spreads && c in s.categories ==> !Offers(c, id, p))
    decreases |spreads|
  {
    if spreads != [] {
      GetPathsForIntentionSound(spreads[1..], id);
      BinaryPathsInSound(spreads[0].categories, id);
      assert forall s :: s in spreads ==> s == spreads[0] || s in spreads[1..];
      match BinaryPathsIn(spreads[0].categories, id)
      case Some(p) =>
        var c :| c in spreads[0].categories && Offers(c, id, p);
        assert BinaryPathsInSpreads(spreads, id) == Some(p);
        assert spreads[0] in spreads && Offers(c, id, GetPathsForIntention(spreads, id));
      case None =>
        if BinaryPathsInSpreads(spreads[1..], id).Some? {
          var r := GetPathsForIntention(spreads[1..], id);
          assert GetPathsForIntention(spreads, id) == r;
          var s, c :| s in spreads[1..] && c in s.categories && Offers(c, id, r);
          assert s in spreads;
        }
    }
  }

  // ---------------------------------------------------------------------------------------
  // Profile-specific slots

  /** `slots.filter(slot => slot.profile === tag)`; with `None`, the untagged slots
    * (`!slot.profile`). */
  function WithProfile(slots: seq<Slot>, tag: Option<ProfileId>): (r: seq<Slot>)
    ensures |r| <= |slots|
    ensures forall x :: x in r <==> x in slots && x.profile == tag
  {
    if slots == [] then []
    else (if slots[0].profile == tag then [slots[0]] else []) + WithProfile(slots[1..], tag)
  }

  lemma {:induction false} WithProfileConcat(a: seq<Slot>, b: seq<Slot>, tag: Option<ProfileId>)
    ensures WithProfile(a + b, tag) == WithProfile(a, tag) + WithProfile(b, tag)
    decreases |a|
  {
    if a == [] {
      assert a + b == b;
    } else {
      assert (a + b)[1..] == a[1..] + b;
      WithProfileConcat(a[1..], b, tag);
    }
  }

  function IdKeys(slots: seq<Slot>): set<string>
  {
    set x | x in slots :: x.idKey
  }

  /** The keys of a `Map` after `set(x.idKey, x)` for each slot in order: each key once, in
    * the order it was first set. */
  function MapKeys(entries: seq<Slot>): (ks: seq<string>)
    ensures forall i, j :: 0 <= i < j < |ks| ==> ks[i] != ks[j]
    ensures forall k :: k in ks <==> k in IdKeys(entries)
    decreases |entries|
  {
    if entries == [] then []
    else
      var ks := MapKeys(entries[..|entries| - 1]);
      var x := entries[|entries| - 1];
      assert entries == entries[..|entries| - 1] + [x];
      if x.idKey in ks then ks else ks + [x.idKey]
  }

  /** The values of that `Map`: under each key, the slot set last. */
  function MapEntries(entries: seq<Slot>): (m: map<string, Slot>)
    ensures m.Keys == IdKeys(entries)
    ensures forall k :: k in m ==> m[k] in entries && m[k].idKey == k
    decreases |entries|
  {
    if entries == [] then map[]
    else
      var x := entries[|entries| - 1];
      assert entries == entries[..|entries| - 1] + [x];
      MapEntries(entries[..|entries| - 1])[x.idKey := x]
  }

  /** One more `set`: a new key goes to the end of the key order, and the entry under the
    * key is replaced. */
  lemma MapSet(pre: seq<Slot>, x: Slot)
    ensures MapKeys(pre + [x]) == if x.idKey in MapKeys(pre) then MapKeys(pre) else MapKeys(pre) + [x.idKey]
    ensures MapEntries(pre + [x]) == MapEntries(pre)[x.idKey := x]
    ensures x.idKey in MapKeys(pre) <==> x.idKey in MapEntries(pre)
  {
    assert (pre + [x])[..|pre + [x]| - 1] == pre;
  }

  /** `Array.from(slotMap.values())`. */
  function MapValues(entries: seq<Slot>): (r: seq<Slot>)
  {
    var ks := MapKeys(entries);
    var m := MapEntries(entries);
    seq(|ks|, i requires 0 <= i < |ks| => m[ks[i]])
  }

  /** What `getSlotsForProfile(spread, p)` returns: with slots tagged `p`, the `Map` of the
    * untagged slots overridden by the tagged ones; otherwise the untagged slots. */
  function SlotsForProfile(slots: seq<Slot>, p: ProfileId): seq<Slot>
  {
    var tagged := WithProfile(slots, Some(p));
    var generic := WithProfile(slots, None);
    if |tagged| > 0 then MapValues(generic + tagged) else generic
  }

  /** A slot set later under a key wins over one set earlier. */
  lemma {:induction false} LaterSetWins(a: seq<Slot>, b: seq<Slot>, k: string)
    requires k in IdKeys(b)
    ensures k in MapEntries(a + b) && MapEntries(a + b)[k] in b
    decreases |b|
  {
    var x := b[|b| - 1];
    var b' := b[..|b| - 1];
    assert b == b' + [x];
    assert a + b == (a + b') + [x];
    MapSet(a + b', x);
    if x.idKey != k {
      assert k in IdKeys(b');
      LaterSetWins(a, b', k);
    }
  }

  /** `slotMap.set(slot.idKey, slot)` for each slot in order, on an empty `Map`, keeping
    * its keys in insertion order beside it. */
  method SetAll(all: seq<Slot>) returns (keys: seq<string>, slotMap: map<string, Slot>)
    ensures keys == MapKeys(all) && slotMap == MapEntries(all)
  {
    keys, slotMap := [], map[];
    var i := 0;
    while i < |all|
      invariant 0 <= i <= |all|
      invariant keys == MapKeys(all[..i]) && slotMap == MapEntries(all[..i])
    {
      var x := all[i];
      assert all[..i + 1] == all[..i] + [x];
      MapSet(all[..i], x);
      if x.idKey !in slotMap {
        keys := keys + [x.idKey];
      }
      slotMap := slotMap[x.idKey := x];
      i := i + 1;
    }
    assert all[..|all|] == all;
  }

  /** `getSlotsForProfile`: untagged slots set first, then the profile's, into a `Map`
    * keyed by `idKey`, whose values come back in first-insertion order. */
  method GetSlotsForProfile(spread: Spread, p: ProfileId) returns (r: seq<Slot>)
    ensures r == SlotsForProfile(spread.slots, p)
  {
    var profileSlots := WithProfile(spread.slots, Some(p));
    var genericSlots := WithProfile(spread.slots, None);
    if |profileSlots| > 0 {
      var keys, slotMap := SetAll(genericSlots + profileSlots);
      r := seq(|keys|, j requires 0 <= j < |keys| => slotMap[keys[j]]);
      return;
    }
    r := genericSlots;
  }

  /** The values of the `Map` have distinct keys, are slots it was given, and cover every
    * key it was given. */
  lemma MapValuesMeaning(e: seq<Slot>)
    ensures var r := MapValues(e);
      (forall i, j :: 0 <= i < j < |r| ==> r[i].idKey != r[j].idKey) &&
      IdKeys(r) == IdKeys(e) &&
      (forall i :: 0 <= i < |r| ==> r[i] in e && r[i] == MapEntries(e)[r[i].idKey])
  {
    var ks := MapKeys(e);
    var m := MapEntries(e);
    var r := MapValues(e);
    assert forall i :: 0 <= i < |r| ==> r[i].idKey == ks[i];
    forall k | k in IdKeys(e)
      ensures k in IdKeys(r)
    {
      var i :| 0 <= i < |ks| && ks[i] == k;
      assert r[i].idKey == k;
    }
  }

  /** With slots tagged for the profile, the result holds exactly one slot per key of the
    * untagged and the profile's slots, each one of those slots, a key the profile tags
    * resolved to a slot of the profile, and slots of other profiles never appear. Without
    * them, the result is the untagged slots in order. */
  lemma SlotsForProfileMeaning(slots: seq<Slot>, p: ProfileId)
    ensures var r := SlotsForProfile(slots, p);
      var tagged := WithProfile(slots, Some(p));
      var generic := WithProfile(slots, None);
      (|tagged| == 0 ==> r == generic) &&
      (|tagged| > 0 ==>
        (forall i, j :: 0 <= i < j < |r| ==> r[i].idKey != r[j].idKey) &&
        IdKeys(r) == IdKeys(generic) + IdKeys(tagged) &&
        (forall i :: 0 <= i < |r| ==> r[i] in slots && (r[i].profile == None || r[i].profile == Some(p))) &&
        (forall i :: 0 <= i < |r| && r[i].idKey in IdKeys(tagged) ==> r[i].profile == Some(p)))
  {
    var tagged := WithProfile(slots, Some(p));
    var generic := WithProfile(slots, None);
    if |tagged| > 0 {
      var e := generic + tagged;
      var r := MapValues(e);
      MapValuesMeaning(e);
      assert IdKeys(e) == IdKeys(generic) + IdKeys(tagged);
      forall i | 0 <= i < |r|
        ensures r[i] in slots && (r[i].profile == None || r[i].profile == Some(p))
      {
        assert r[i] in generic || r[i] in tagged;
      }
      forall i | 0 <= i < |r| && r[i].idKey in IdKeys(tagged)
        ensures r[i].profile == Some(p)
      {
        LaterSetWins(generic, tagged, r[i].idKey);
      }
    }
  }

  /** With distinct keys, the `Map` hands back the slots it was given, in order. */
  lemma {:induction false} DistinctKeysKeptInOrder(e: seq<Slot>)
    requires forall i, j :: 0 <= i < j < |e| ==> e[i].idKey != e[j].idKey
    ensures MapValues(e) == e
    decreases |e|
  {
    if e != [] {
      var f := e[..|e| - 1];
      var x := e[|e| - 1];
      assert e == f + [x];
      DistinctKeysKeptInOrder(f);
      forall y | y in f
        ensures y.idKey != x.idKey
      {
        var k :| 0 <= k < |f| && f[k] == y;
        assert e[k] == y && e[|e| - 1] == x;
      }
      assert x.idKey !in IdKeys(f);
      KeptStep(f, x);
    }
  }

  /** A slot with a new key, set after slots the `Map` hands back in order, comes back
    * after them. */
  lemma KeptStep(f: seq<Slot>, x: Slot)
    requires MapValues(f) == f && x.idKey !in IdKeys(f)
    ensures MapValues(f + [x]) == f + [x]
  {
    var e := f + [x];
    MapSet(f, x);
    var kf, mf := MapKeys(f), MapEntries(f);
    var ke, me := MapKeys(e), MapEntries(e);
    assert x.idKey !in kf;
    assert ke == kf + [x.idKey] && me == mf[x.idKey := x];
    assert |kf| == |f| by {
      assert |MapValues(f)| == |f|;
    }
    var r := MapValues(e);
    forall i | 0 <= i < |e|
      ensures r[i] == e[i]
    {
      if i < |f| {
        assert MapValues(f)[i] == f[i];
        assert ke[i] == kf[i] != x.idKey;
      }
    }
  }

  // ---------------------------------------------------------------------------------------
  // Zodiac seasons

  const ZODIAC: seq<string> := ["Aries", "Taurus", "Gemini", "Cancer", "Leo", "Virgo",
                                "Libra", "Scorpio", "Sagittarius", "Capricorn", "Aquarius", "Pisces"]

  /** A sign's tropical date range, from (start month, start day) to (end month, end day). */
  datatype SignRange = SignRange(sign: string, sm: int, sd: int, em: int, ed: int)

  const RANGES: seq<SignRange> := [
    SignRange("Aries", 3, 21, 4, 19),
    SignRange("Taurus", 4, 20, 5, 20),
    SignRange("Gemini", 5, 21, 6, 20),
    SignRange("Cancer", 6, 21, 7, 22),
    SignRange("Leo", 7, 23, 8, 22),
    SignRange("Virgo", 8, 23, 9, 22),
    SignRange("Libra", 9, 23, 10, 22),
    SignRange("Scorpio", 10, 23, 11, 21),
    SignRange("Sagittarius", 11, 22, 12, 21),
    SignRange("Capricorn", 12, 22, 1, 19),
    SignRange("Aquarius", 1, 20, 2, 18),
    SignRange("Pisces", 2, 19, 3, 20)
  ]

  /** The ranges follow the zodiac wheel. */
  lemma RangesFollowZodiac()
    ensures |RANGES| == |ZODIAC| == 12
    ensures forall i :: 0 <= i < 12 ==> RANGES[i].sign == ZODIAC[i]
  {
  }

  predicate IsOnOrAfter(m: int, d: int, sm: int, sd: int)
  {
    if m == sm then d >= sd else m > sm
  }

  predicate IsOnOrBefore(m: int, d: int, em: int, ed: int)
  {
    if m == em then d <= ed else m < em
  }

  /** Whether (month, day) falls in the range; a range that ends in an earlier month than it
    * starts wraps round the new year, and either bound suffices. */
  predicate InRange(r: SignRange, m: int, d: int)
  {
    if r.em < r.sm then IsOnOrAfter(m, d, r.sm, r.sd) || IsOnOrBefore(m, d, r.em, r.ed)
    else IsOnOrAfter(m, d, r.sm, r.sd) && IsOnOrBefore(m, d, r.em, r.ed)
  }

  /** The search from range `i` on: the first range containing the date, else 0. */
  function SeasonFrom(m: int, d: int, i: nat): (r: nat)
    requires i <= |RANGES|
    ensures r < |RANGES|
    ensures (exists j :: i <= j < |RANGES| && InRange(RANGES[j], m, d)) ==>
      i <= r && InRange(RANGES[r], m, d) && forall j :: i <= j < r ==> !InRange(RANGES[j], m, d)
    ensures (forall j :: i <= j < |RANGES| ==> !InRange(RANGES[j], m, d)) ==> r == 0
    decreases |RANGES| - i
  {
    if i == |RANGES| then 0
    else if InRange(RANGES[i], m, d) then i
    else SeasonFrom(m, d, i + 1)
  }

  /** `currentSeasonIndex` for a date of month `m` (1 to 12) and day `d`. */
  function SeasonIndex(m: int, d: int): nat
  {
    SeasonFrom(m, d, 0)
  }

  /** The sign of each date, month by month: the table the ranges encode. */
  function SeasonByMonth(m: int, d: int): nat
    requires 1 <= m <= 12
  {
    match m
    case 1 => if d <= 19 then 9 else 10
    case 2 => if d <= 18 then 10 else 11
    case 3 => if d <= 20 then 11 else 0
    case 4 => if d <= 19 then 0 else 1
    case 5 => if d <= 20 then 1 else 2
    case 6 => if d <= 20 then 2 else 3
    case 7 => if d <= 22 then 3 else 4
    case 8 => if d <= 22 then 4 else 5
    case 9 => if d <= 22 then 5 else 6
    case 10 => if d <= 22 then 6 else 7
    case 11 => if d <= 21 then 7 else 8
    case 12 => if d <= 21 then 8 else 9
  }

  /** Every date of every month lies in exactly one range, the one of the month table; so the
    * ranges are contiguous and disjoint, and Capricorn is the range that wraps. */
  lemma SeasonRangesPartitionYear(m: int, d: int, i: nat)
    requires 1 <= m <= 12 && i < 12
    ensures InRange(RANGES[i], m, d) <==> i == SeasonByMonth(m, d)
  {
  }

  /** The search always finds a range, even for a month outside 1 to 12 (the wrapping range
    * takes those), so the fallback 0 is never used. */
  lemma SeasonAlwaysFound(m: int, d: int)
    ensures exists j :: 0 <= j < 12 && InRange(RANGES[j], m, d)
    ensures !(1 <= m <= 12) ==> SeasonIndex(m, d) == 9
  {
    if 1 <= m <= 12 {
      SeasonRangesPartitionYear(m, d, SeasonByMonth(m, d));
    } else {
      assert InRange(RANGES[9], m, d);
      forall j | 0 <= j < 9
        ensures !InRange(RANGES[j], m, d)
      {
      }
    }
  }

  /** The season of a calendar date is the sign of the month table. */
  lemma SeasonIndexByMonth(m: int, d: int)
    requires 1 <= m <= 12
    ensures SeasonIndex(m, d) == SeasonByMonth(m, d)
    ensures InRange(RANGES[SeasonIndex(m, d)], m, d)
  {
    var b := SeasonByMonth(m, d);
    SeasonRangesPartitionYear(m, d, b);
    forall j | 0 <= j < b
      ensures !InRange(RANGES[j], m, d)
    {
      SeasonRangesPartitionYear(m, d, j);
    }
  }

  /** `currentSeasonIndex(d)` for a date in month `month` (`getMonth() + 1`) on day `day`:
    * the search loop over the ranges. */
  method CurrentSeasonIndex(month: int, day: int) returns (idx: int)
    ensures idx == SeasonIndex(month, day)
    ensures idx < 12 && InRange(RANGES[idx], month, day)
    ensures 1 <= month <= 12 ==> idx == SeasonByMonth(month, day)
  {
    SeasonAlwaysFound(month, day);
    var i := 0;
    while i < |RANGES|
      invariant 0 <= i <= |RANGES|
      invariant forall j :: 0 <= j < i ==> !InRange(RANGES[j], month, day)
    {
      var r := RANGES[i];
      var wraps := r.em < r.sm;
      var inRange := if wraps then IsOnOrAfter(month, day, r.sm, r.sd) || IsOnOrBefore(month, day, r.em, r.ed)
                     else IsOnOrAfter(month, day, r.sm, r.sd) && IsOnOrBefore(month, day, r.em, r.ed);
      if inRange {
        idx := i;
        if 1 <= month <= 12 {
          SeasonIndexByMonth(month, day);
        }
        return;
      }
      i := i + 1;
    }
    assert false;
    idx := 0;
  }

  // ---------------------------------------------------------------------------------------
  // The horoscope spread

  /** Position `i` counted round the wheel from sign `k`: `(i + k) mod 12`. */
  function WheelIndex(i: nat, k: nat): (r: nat)
    requires i < 12 && k < 12
    ensures r < 12
  {
    if i + k < 12 then i + k else i + k - 12
  }

  /** The zodiac rotated to start at sign `k` (`slice` keeps the whole wheel for k >= 12). */
  function Rotated(k: nat): (r: seq<string>)
    ensures |r| == 12
    ensures k < 12 ==> forall i :: 0 <= i < 12 ==> r[i] == ZODIAC[WheelIndex(i, k)]
  {
    if k >= 12 then ZODIAC else ZODIAC[k..] + ZODIAC[..k]
  }

  const SIGN_KEYS: seq<string> := ["aries", "taurus", "gemini", "cancer", "leo", "virgo",
                                   "libra", "scorpio", "sagittarius", "capricorn", "aquarius", "pisces"]

  /** The lower-cased sign is its slot key. */
  lemma LowerSign(i: nat)
    requires i < 12
    ensures Lower(ZODIAC[i]) == SIGN_KEYS[i]
  {
    assert |Lower(ZODIAC[i])| == |SIGN_KEYS[i]|;
    forall j | 0 <= j < |SIGN_KEYS[i]|
      ensures Lower(ZODIAC[i])[j] == SIGN_KEYS[i][j]
    {
    }
  }

  /** The slot keys of the signs are distinct. */
  lemma SignKeysDistinct()
    ensures |SIGN_KEYS| == 12
    ensures forall i, j :: 0 <= i < j < 12 ==> SIGN_KEYS[i] != SIGN_KEYS[j]
  {
    forall i, j | 0 <= i < j < 12
      ensures SIGN_KEYS[i] != SIGN_KEYS[j]
    {
      assert |SIGN_KEYS[i]| != |SIGN_KEYS[j]| || SIGN_KEYS[i][0] != SIGN_KEYS[j][0];
    }
  }

  /** `ZODIAC.findIndex(sign => sign.toLowerCase() === key)` from position `j` on. */
  function SignIndexFrom(key: string, j: nat): (r: Option<nat>)
    requires j <= 12
    ensures r.Some? ==> j <= r.value < 12 && Lower(ZODIAC[r.value]) == key
    ensures r.None? ==> forall i :: j <= i < 12 ==> Lower(ZODIAC[i]) != key
    decreases 12 - j
  {
    if j == 12 then None
    else if Lower(ZODIAC[j]) == key then Some(j)
    else SignIndexFrom(key, j + 1)
  }

  /** `ZODIAC[ZODIAC.findIndex(...)] || key`: the capitalised sign of a key. */
  function SignLabel(key: string): string
  {
    match SignIndexFrom(key, 0)
    case Some(j) => ZODIAC[j]
    case None => key
  }

  /** `row(yPerc, keys)`: the keys spread evenly across the width at height `y`. */
  function Row(y: real, keys: seq<string>): (r: seq<Slot>)
    ensures |r| == |keys|
  {
    seq(|keys|, i requires 0 <= i < |keys| =>
      Slot(keys[i], SignLabel(keys[i]), ((i + 1) as real * 100.0) / ((|keys| + 1) as real), y, None, None))
  }

  function LowerAll(xs: seq<string>): (r: seq<string>)
    ensures |r| == |xs|
  {
    seq(|xs|, i requires 0 <= i < |xs| => Lower(xs[i]))
  }

  /** The desktop and tablet layout: the first six signs at y = 25, the last six at y = 65. */
  function HoroscopeRows(k: nat): (r: seq<Slot>)
    ensures |r| == 12
  {
    var rotated := Rotated(k);
    Row(25.0, LowerAll(rotated[..6])) + Row(65.0, LowerAll(rotated[6..]))
  }

  /** The mobile layout: three columns of four rows. */
  function MobileSlots(k: nat): (r: seq<Slot>)
    ensures |r| == 12
  {
    var rotated := Rotated(k);
    seq(12, i requires 0 <= i < 12 =>
      Slot(Lower(rotated[i]), rotated[i], 25.0 + (i % 3) as real * 25.0, 10.0 + (i / 3) as real * 25.0, None, Some(Mobile)))
  }

  /** `slots.map(slot => ({ ...slot, profile: p }))`. */
  function Tag(slots: seq<Slot>, p: ProfileId): (r: seq<Slot>)
    ensures |r| == |slots|
  {
    seq(|slots|, i requires 0 <= i < |slots| => slots[i].(profile := Some(p)))
  }

  /** `horoscopeSpreadDef(startFromSeason)`. */
  function HoroscopeSpreadDef(start: nat): Spread
  {
    var rows := HoroscopeRows(start);
    Spread("horoscope", "Horoscope (starts at current season)",
           Tag(rows, Desktop) + Tag(rows, Tablet) + MobileSlots(start), [])
  }

  /** The twelve slots of profile `p` in the horoscope spread. */
  function HoroscopeBlock(start: nat, p: ProfileId): seq<Slot>
  {
    match p
    case Desktop => Tag(HoroscopeRows(start), Desktop)
    case Tablet => Tag(HoroscopeRows(start), Tablet)
    case Mobile => MobileSlots(start)
  }

  /** The label of a sign's key is the capitalised sign. */
  lemma SignLabelOfKey(j: nat)
    requires j < 12
    ensures SignLabel(SIGN_KEYS[j]) == ZODIAC[j]
  {
    SignKeysDistinct();
    LowerSign(j);
    var f := SignIndexFrom(SIGN_KEYS[j], 0);
    assert f.Some?;
    LowerSign(f.value);
    assert SIGN_KEYS[f.value] == SIGN_KEYS[j];
  }

  /** The row slot at position `i` of the desktop and tablet layout. */
  lemma RowSlotAt(start: nat, i: nat)
    requires start < 12 && i < 12
    ensures var x := HoroscopeRows(start)[i];
      var w := WheelIndex(i, start);
      x.idKey == SIGN_KEYS[w] && x.cardLabel == ZODIAC[w] &&
      x.yPerc == (if i < 6 then 25.0 else 65.0) &&
      x.xPerc == ((if i < 6 then i else i - 6) + 1) as real * 100.0 / 7.0 &&
      x.angle == None && x.profile == None
  {
    var w := WheelIndex(i, start);
    LowerSign(w);
    var rotated := Rotated(start);
    var top := LowerAll(rotated[..6]);
    var bot := LowerAll(rotated[6..]);
    assert HoroscopeRows(start) == Row(25.0, top) + Row(65.0, bot);
    assert Lower(rotated[i]) == SIGN_KEYS[w];
    SignLabelOfKey(w);
    var r := HoroscopeRows(start);
    if i < 6 {
      assert top[i] == SIGN_KEYS[w];
      assert r[i] == Row(25.0, top)[i];
      assert r[i] == Slot(SIGN_KEYS[w], ZODIAC[w], ((i + 1) as real * 100.0) / 7.0, 25.0, None, None);
    } else {
      assert bot[i - 6] == SIGN_KEYS[w];
      assert r[i] == Row(65.0, bot)[i - 6];
      assert r[i] == Slot(SIGN_KEYS[w], ZODIAC[w], ((i - 6 + 1) as real * 100.0) / 7.0, 65.0, None, None);
    }
  }

  /** The desktop and tablet layout starts at sign `start` and follows the wheel, six cards
    * to a row at y = 25 and y = 65, spread at x = (i + 1) * 100 / 7, each showing the
    * capitalised sign of its key. */
  lemma HoroscopeRowsShape(start: nat)
    requires start < 12
    ensures var r := HoroscopeRows(start);
      forall i :: 0 <= i < 12 ==>
        r[i].idKey == SIGN_KEYS[WheelIndex(i, start)] && r[i].cardLabel == ZODIAC[WheelIndex(i, start)] &&
        r[i].yPerc == (if i < 6 then 25.0 else 65.0) &&
        r[i].xPerc == ((if i < 6 then i else i - 6) + 1) as real * 100.0 / 7.0 &&
        r[i].angle == None && r[i].profile == None
  {
    forall i | 0 <= i < 12
      ensures var r := HoroscopeRows(start);
        r[i].idKey == SIGN_KEYS[WheelIndex(i, start)] && r[i].cardLabel == ZODIAC[WheelIndex(i, start)] &&
        r[i].yPerc == (if i < 6 then 25.0 else 65.0) &&
        r[i].xPerc == ((if i < 6 then i else i - 6) + 1) as real * 100.0 / 7.0 &&
        r[i].angle == None && r[i].profile == None
    {
      RowSlotAt(start, i);
    }
  }

  /** Column `i % 3` and row `i / 3` of twelve cards. */
  lemma MobileGrid(i: nat)
    requires i < 12
    ensures 25.0 + (i % 3) as real * 25.0 in {25.0, 50.0, 75.0}
    ensures 10.0 + (i / 3) as real * 25.0 in {10.0, 35.0, 60.0, 85.0}
  {
    var c, r := i % 3, i / 3;
    assert i == 3 * r + c && 0 <= c < 3;
    assert r < 4;
    assert c == 0 || c == 1 || c == 2;
    assert r == 0 || r == 1 || r == 2 || r == 3;
  }

  /** The mobile slot at position `i`: column `i % 3`, row `i / 3`. */
  lemma MobileSlotAt(start: nat, i: nat)
    requires start < 12 && i < 12
    ensures var x := MobileSlots(start)[i];
      var w := WheelIndex(i, start);
      x.idKey == SIGN_KEYS[w] && x.cardLabel == ZODIAC[w] && x.profile == Some(Mobile) &&
      x.xPerc == 25.0 + (i % 3) as real * 25.0 && x.yPerc == 10.0 + (i / 3) as real * 25.0 &&
      x.xPerc in {25.0, 50.0, 75.0} && x.yPerc in {10.0, 35.0, 60.0, 85.0}
  {
    LowerSign(WheelIndex(i, start));
    MobileGrid(i);
  }

  /** The mobile slots: columns at x = 25, 50 and 75, rows at y = 10, 35, 60 and 85, no two
    * slots in the same place, the sign as the label and its lower case as the key. */
  lemma MobileSlotsShape(start: nat)
    requires start < 12
    ensures var r := MobileSlots(start);
      (forall i :: 0 <= i < 12 ==>
        r[i].idKey == SIGN_KEYS[WheelIndex(i, start)] && r[i].cardLabel == ZODIAC[WheelIndex(i, start)] &&
        r[i].profile == Some(Mobile) &&
        r[i].xPerc in {25.0, 50.0, 75.0} && r[i].yPerc in {10.0, 35.0, 60.0, 85.0}) &&
      (forall i, j :: 0 <= i < j < 12 ==> r[i].xPerc != r[j].xPerc || r[i].yPerc != r[j].yPerc)
  {
    var r := MobileSlots(start);
    forall i | 0 <= i < 12
      ensures r[i].idKey == SIGN_KEYS[WheelIndex(i, start)] && r[i].cardLabel == ZODIAC[WheelIndex(i, start)] &&
        r[i].profile == Some(Mobile) &&
        r[i].xPerc in {25.0, 50.0, 75.0} && r[i].yPerc in {10.0, 35.0, 60.0, 85.0}
    {
      MobileSlotAt(start, i);
    }
    forall i, j | 0 <= i < j < 12
      ensures r[i].xPerc != r[j].xPerc || r[i].yPerc != r[j].yPerc
    {
      MobileSlotAt(start, i);
      MobileSlotAt(start, j);
      if i / 3 == j / 3 {
        assert i % 3 != j % 3;
      }
    }
  }

  /** The slot at position `i` of profile `p`'s block. */
  lemma BlockSlotAt(start: nat, p: ProfileId, i: nat)
    requires start < 12 && i < 12
    ensures var b := HoroscopeBlock(start, p);
      |b| == 12 && b[i].profile == Some(p) &&
      b[i].idKey == SIGN_KEYS[WheelIndex(i, start)] && b[i].cardLabel == ZODIAC[WheelIndex(i, start)]
  {
    if p == Mobile {
      MobileSlotAt(start, i);
    } else {
      RowSlotAt(start, i);
    }
  }

  /** Each profile's block holds every sign exactly once. */
  lemma HoroscopeBlockHoldsEachSignOnce(start: nat, p: ProfileId)
    requires start < 12
    ensures var b := HoroscopeBlock(start, p);
      |b| == 12 &&
      (forall i :: 0 <= i < 12 ==> b[i].profile == Some(p)) &&
      (forall i, j :: 0 <= i < j < 12 ==> b[i].idKey != b[j].idKey) &&
      (forall s :: 0 <= s < 12 ==> exists i :: 0 <= i < 12 && b[i].idKey == SIGN_KEYS[s] && b[i].cardLabel == ZODIAC[s])
  {
    SignKeysDistinct();
    var b := HoroscopeBlock(start, p);
    BlockSlotAt(start, p, 0);
    forall i | 0 <= i < 12
      ensures b[i].profile == Some(p)
    {
      BlockSlotAt(start, p, i);
    }
    forall i, j | 0 <= i < j < 12
      ensures b[i].idKey != b[j].idKey
    {
      BlockSlotAt(start, p, i);
      BlockSlotAt(start, p, j);
      assert WheelIndex(i, start) != WheelIndex(j, start);
    }
    forall s | 0 <= s < 12
      ensures exists i :: 0 <= i < 12 && b[i].idKey == SIGN_KEYS[s] && b[i].cardLabel == ZODIAC[s]
    {
      var i := if s >= start then s - start else s + 12 - start;
      BlockSlotAt(start, p, i);
      assert WheelIndex(i, start) == s;
    }
  }

  /** Filtering a desktop block, a tablet block and a mobile block by a tag. */
  lemma ThreeBlocksFiltered(d: seq<Slot>, t: seq<Slot>, m: seq<Slot>, p: ProfileId)
    requires forall i :: 0 <= i < |d| ==> d[i].profile == Some(Desktop)
    requires forall i :: 0 <= i < |t| ==> t[i].profile == Some(Tablet)
    requires forall i :: 0 <= i < |m| ==> m[i].profile == Some(Mobile)
    ensures WithProfile(d + t + m, Some(p)) == match p case Desktop => d case Tablet => t case Mobile => m
    ensures WithProfile(d + t + m, None) == []
  {
    WithProfileConcat(d + t, m, Some(p));
    WithProfileConcat(d, t, Some(p));
    WithProfileConcat(d + t, m, None);
    WithProfileConcat(d, t, None);
    AllTagged(d, Desktop, p);
    AllTagged(t, Tablet, p);
    AllTagged(m, Mobile, p);
    match p
    case Desktop =>
      assert d + [] + [] == d;
    case Tablet =>
      assert [] + t + [] == t;
    case Mobile =>
      assert [] + [] + m == m;
  }

  /** Filtering the horoscope slots by a profile tag picks out that profile's block, and no
    * slot is untagged. */
  lemma HoroscopeFiltered(start: nat, p: ProfileId)
    ensures WithProfile(HoroscopeSpreadDef(start).slots, Some(p)) == HoroscopeBlock(start, p)
    ensures WithProfile(HoroscopeSpreadDef(start).slots, None) == []
  {
    var rows := HoroscopeRows(start);
    ThreeBlocksFiltered(Tag(rows, Desktop), Tag(rows, Tablet), MobileSlots(start), p);
  }

  /** The horoscope spread has 36 slots, and resolving it for a profile gives exactly that
    * profile's twelve slots, in order. */
  lemma HoroscopeSlotsForProfile(start: nat, p: ProfileId)
    requires start < 12
    ensures |HoroscopeSpreadDef(start).slots| == 36
    ensures SlotsForProfile(HoroscopeSpreadDef(start).slots, p) == HoroscopeBlock(start, p)
  {
    HoroscopeFiltered(start, p);
    HoroscopeBlockHoldsEachSignOnce(start, p);
    OnlyTaggedDistinct(HoroscopeSpreadDef(start).slots, p, HoroscopeBlock(start, p));
  }

  /** Slots with no generic slot, whose slots for `p` are non-empty with distinct keys,
    * resolve for `p` to exactly those slots, in order. */
  lemma OnlyTaggedDistinct(slots: seq<Slot>, p: ProfileId, b: seq<Slot>)
    requires WithProfile(slots, Some(p)) == b && WithProfile(slots, None) == [] && |b| > 0
    requires forall i, j :: 0 <= i < j < |b| ==> b[i].idKey != b[j].idKey
    ensures SlotsForProfile(slots, p) == b
  {
    DistinctKeysKeptInOrder(b);
    assert [] + b == b;
  }

  /** Filtering a block whose slots all carry tag `q`. */
  lemma {:induction false} AllTagged(b: seq<Slot>, q: ProfileId, p: ProfileId)
    requires forall i :: 0 <= i < |b| ==> b[i].profile == Some(q)
    ensures WithProfile(b, Some(p)) == if p == q then b else []
    ensures WithProfile(b, None) == []
    decreases |b|
  {
    if b != [] {
      AllTagged(b[1..], q, p);
      assert b == [b[0]] + b[1..];
    }
  }

  // ---------------------------------------------------------------------------------------
  // Pros-and-cons spreads

  /** The five slots of a pros-and-cons spread for paths `a` and `b`. */
  function ProsConsSlots(a: string, b: string): seq<Slot>
  {
    [Slot("focus-5", "Focus", 50.0, 30.0, None, None),
     Slot("prosA-5", "Pros:\n" + a, 20.0, 65.0, None, None),
     Slot("consA-5", "Cons:\n" + a, 35.0, 65.0, None, None),
     Slot("prosB-5", "Pros:\n" + b, 65.0, 65.0, None, None),
     Slot("consB-5", "Cons:\n" + b, 80.0, 65.0, None, None)]
  }

  /** `pathAVsBSpreadDef(pathA = "Path A", pathB = "Path B")`. */
  function PathAVsBSpreadDef(pathA: Option<string>, pathB: Option<string>): Spread
  {
    var a := pathA.GetOr("Path A");
    var b := pathB.GetOr("Path B");
    Spread("pathab", a + " vs " + b, ProsConsSlots(a, b), [])
  }

  /** `thisOrThatSpreadDef(pathA = "Option A", pathB = "Option B")`. */
  function ThisOrThatSpreadDef(pathA: Option<string>, pathB: Option<string>): Spread
  {
    var a := pathA.GetOr("Option A");
    var b := pathB.GetOr("Option B");
    Spread("this-or-that", a + " vs " + b + " (Pros & Cons)", ProsConsSlots(a, b), [])
  }

  /** A pros-and-cons spread has five slots with distinct keys: the focus card above, and a
    * row of four below from left to right whose labels carry the paths, which can be read
    * back from them. */
  lemma ProsConsShape(a: string, b: string)
    ensures var s := ProsConsSlots(a, b);
      |s| == 5 &&
      (forall i, j :: 0 <= i < j < 5 ==> s[i].idKey != s[j].idKey) &&
      s[0].cardLabel == "Focus" && s[0].yPerc == 30.0 &&
      (forall i :: 1 <= i < 5 ==> s[i].yPerc == 65.0 && |s[i].cardLabel| >= 6) &&
      (forall i, j :: 1 <= i < j < 5 ==> s[i].xPerc < s[j].xPerc) &&
      s[1].cardLabel[6..] == a && s[2].cardLabel[6..] == a &&
      s[3].cardLabel[6..] == b && s[4].cardLabel[6..] == b &&
      s[1].cardLabel[..6] == s[3].cardLabel[..6] == "Pros:\n" &&
      s[2].cardLabel[..6] == s[4].cardLabel[..6] == "Cons:\n"
  {
    var s := ProsConsSlots(a, b);
    assert s[1].cardLabel[6..] == a;
    assert s[2].cardLabel[6..] == a;
    assert s[3].cardLabel[6..] == b;
    assert s[4].cardLabel[6..] == b;
  }

  /** Both spreads lay out the same slots for the same paths, and missing paths take their
    * defaults: "Path A"/"Path B" in one, "Option A"/"Option B" in the other. */
  lemma ProsConsSpreadsAgree(a: string, b: string)
    ensures PathAVsBSpreadDef(Some(a), Some(b)).slots == ThisOrThatSpreadDef(Some(a), Some(b)).slots
    ensures PathAVsBSpreadDef(None, None).slots == ProsConsSlots("Path A", "Path B")
    ensures ThisOrThatSpreadDef(None, None).slots == ProsConsSlots("Option A", "Option B")
    ensures PathAVsBSpreadDef(Some(a), Some(b)).id == "pathab" && ThisOrThatSpreadDef(Some(a), Some(b)).id == "this-or-that"
  {
  }
}
