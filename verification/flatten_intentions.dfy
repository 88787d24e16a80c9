/** `flattenIntentions(spread, vars?)`: the intentions of every category of a spread, as one
  * list of ids and labels, the labels interpolated when variables are given. */
module FlattenIntentions {
  import opened Common
  import opened Spreads

  /** One entry of the flattened list: `{ id, label }`. */
  datatype Entry = Entry(id: string, text: string)

  /** `vars?.[k] ?? ""`: a missing variable becomes the empty string. */
  function EmptyFill(vars: map<string, string>): string -> string
  {
    k => if k in vars then vars[k] else ""
  }

  /** `interpolate(label, vars)`: every placeholder replaced by its variable, or by nothing. */
  function Interpolate(text: string, vars: map<string, string>): string
  {
    Replace(text, EmptyFill(vars))
  }

  /** The entry of one intention: its id, and its label interpolated only when `vars` is given. */
  function EntryFor(i: Intention, vars: Option<map<string, string>>): Entry
  {
    Entry(i.id, if vars.Some? then Interpolate(i.text, vars.value) else i.text)
  }

  function EntriesOf(xs: seq<Intention>, vars: Option<map<string, string>>): (r: seq<Entry>)
    ensures |r| == |xs|
  {
    seq(|xs|, k requires 0 <= k < |xs| => EntryFor(xs[k], vars))
  }

  /** The flattened list: the entry of each intention, category by category. Its ids are the
    * intention ids, and without variables its labels are the intentions' own. */
  function Flattened(cats: seq<Category>, vars: Option<map<string, string>>): (r: seq<Entry>)
    ensures |r| == |AllIntentions(cats)|
    ensures forall k :: 0 <= k < |r| ==> r[k].id == AllIntentions(cats)[k].id
    ensures vars.None? ==> forall k :: 0 <= k < |r| ==> r[k].text == AllIntentions(cats)[k].text
  {
    EntriesOf(AllIntentions(cats), vars)
  }

  /** The number of intentions in the categories before category `c`. */
  function CountBefore(cats: seq<Category>, c: nat): nat
    requires c <= |cats|
  {
    if c == 0 then 0 else CountBefore(cats, c - 1) + |cats[c - 1].intentions|
  }

  /** Adding a category at the end adds its intentions at the end. */
  lemma {:induction false} AllIntentionsSnoc(cats: seq<Category>, c: Category)
    ensures AllIntentions(cats + [c]) == AllIntentions(cats) + c.intentions
    decreases |cats|
  {
    if cats == [] {
      assert AllIntentions([c]) == c.intentions + AllIntentions([]);
    } else {
      assert (cats + [c])[1..] == cats[1..] + [c];
      AllIntentionsSnoc(cats[1..], c);
    }
  }

  /** The intentions of the first `c` categories are the first `CountBefore(cats, c)`
    * intentions, and category `c` follows them. */
  lemma {:induction false} AllIntentionsPrefix(cats: seq<Category>, c: nat)
    requires c <= |cats|
    ensures |AllIntentions(cats[..c])| == CountBefore(cats, c)
    ensures c < |cats| ==> AllIntentions(cats[..c + 1]) == AllIntentions(cats[..c]) + cats[c].intentions
    decreases c
  {
    if c > 0 {
      AllIntentionsPrefix(cats, c - 1);
    }
    if c < |cats| {
      assert cats[..c + 1] == cats[..c] + [cats[c]];
      AllIntentionsSnoc(cats[..c], cats[c]);
    }
  }

  /** One entry per intention, in category order and then intention order: intention `j` of
    * category `c` comes after every intention of the earlier categories, at position
    * `CountBefore(cats, c) + j`, and the list is exactly as long as all the intentions. */
  lemma FlattenedAt(cats: seq<Category>, vars: Option<map<string, string>>, c: nat, j: nat)
    requires c < |cats| && j < |cats[c].intentions|
    ensures var r := Flattened(cats, vars);
      |r| == CountBefore(cats, |cats|) &&
      CountBefore(cats, c) + j < |r| &&
      r[CountBefore(cats, c) + j] == EntryFor(cats[c].intentions[j], vars)
  {
    AllIntentionsCount(cats);
    AllIntentionsAt(cats, c, j);
    var all := AllIntentions(cats);
    var k := CountBefore(cats, c) + j;
    assert Flattened(cats, vars)[k] == EntryFor(all[k], vars);
  }

  /** There are `CountBefore(cats, |cats|)` intentions in all. */
  lemma AllIntentionsCount(cats: seq<Category>)
    ensures |AllIntentions(cats)| == CountBefore(cats, |cats|)
  {
    AllIntentionsPrefix(cats, |cats|);
    assert cats[..|cats|] == cats;
  }

  /** Intention `j` of category `c` sits at position `CountBefore(cats, c) + j` of all the
    * intentions. */
  lemma AllIntentionsAt(cats: seq<Category>, c: nat, j: nat)
    requires c < |cats| && j < |cats[c].intentions|
    ensures CountBefore(cats, c) + j < |AllIntentions(cats)|
    ensures AllIntentions(cats)[CountBefore(cats, c) + j] == cats[c].intentions[j]
  {
    AllIntentionsPrefix(cats, c);
    var upTo := AllIntentions(cats[..c + 1]);
    assert upTo == AllIntentions(cats[..c]) + cats[c].intentions;
    assert cats == cats[..c + 1] + cats[c + 1..];
    AllIntentionsAppend(cats[..c + 1], cats[c + 1..]);
    var k := CountBefore(cats, c) + j;
    assert upTo[k] == cats[c].intentions[j];
    assert AllIntentions(cats) == upTo + AllIntentions(cats[c + 1..]);
  }

  /** The intentions of two runs of categories, one after the other. */
  lemma {:induction false} AllIntentionsAppend(a: seq<Category>, b: seq<Category>)
    ensures AllIntentions(a + b) == AllIntentions(a) + AllIntentions(b)
    decreases |a|
  {
    if a == [] {
      assert a + b == b;
    } else {
      assert (a + b)[1..] == a[1..] + b;
      AllIntentionsAppend(a[1..], b);
    }
  }

  /** `flattenIntentions(spread, vars)`: the nested loops push one entry per intention. */
  method FlattenIntentionsOf(spread: Spread, vars: Option<map<string, string>>) returns (list: seq<Entry>)
    ensures list == Flattened(spread.categories, vars)
  {
    var cats := spread.categories;
    list := [];
    var c := 0;
    while c < |cats|
      invariant 0 <= c <= |cats|
      invariant list == Flattened(cats[..c], vars)
    {
      var cat := cats[c];
      var j := 0;
      while j < |cat.intentions|
        invariant 0 <= j <= |cat.intentions|
        invariant list == Flattened(cats[..c], vars) + EntriesOf(cat.intentions[..j], vars)
      {
        var i := cat.intentions[j];
        var text := if vars.Some? then Interpolate(i.text, vars.value) else i.text;
        list := list + [Entry(i.id, text)];
        assert cat.intentions[..j + 1] == cat.intentions[..j] + [i];
        EntriesAppend(cat.intentions[..j], [i], vars);
        j := j + 1;
      }
      assert cat.intentions[..j] == cat.intentions;
      AllIntentionsPrefix(cats, c);
      EntriesAppend(AllIntentions(cats[..c]), cat.intentions, vars);
      assert list == Flattened(cats[..c + 1], vars);
      c := c + 1;
    }
    assert cats[..c] == cats;
  }

  lemma EntriesAppend(a: seq<Intention>, b: seq<Intention>, vars: Option<map<string, string>>)
    ensures EntriesOf(a + b, vars) == EntriesOf(a, vars) + EntriesOf(b, vars)
  {
  }

  /** When every placeholder of a label has its variable, interpolation and `substituteVars`
    * agree. */
  lemma InterpolateAgreesWhenAllGiven(text: string, vars: map<string, string>)
    requires forall k :: k in Names(text) ==> k in vars
    ensures Interpolate(text, vars) == SubstituteVars(text, vars)
  {
    FillsAgree(text, EmptyFill(vars), BlankFill(vars));
  }

  /** A missing variable is dropped: it leaves nothing where `substituteVars` leaves five
    * underscores. */
  lemma InterpolateMissingIsEmpty(p: string, k: string, q: string, vars: map<string, string>)
    requires '$' !in p && '$' !in q && IsWord(k) && k !in vars
    ensures Interpolate(p + "${" + k + "}" + q, vars) == p + q
    ensures SubstituteVars(p + "${" + k + "}" + q, vars) == p + "_____" + q
  {
    OnePlaceholder(p, k, q, EmptyFill(vars));
    OnePlaceholder(p, k, q, BlankFill(vars));
    assert p + "" + q == p + q;
  }
}
