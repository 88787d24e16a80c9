/** The question helpers of the app: the categories a spread offers, and the label of an
  * intention with its variables filled in. */
module AppQuestion {
  import opened Common
  import opened Spreads

  /** `listCategoriesForSpread(spreadId)` over the spread list `spreads`: the categories of
    * the spread with that id, or none when no spread has it. */
  function ListCategoriesForSpread(spreads: seq<Spread>, id: string): (r: seq<Category>)
    ensures (forall s :: s in spreads ==> s.id != id) ==> r == []
    ensures (exists s :: s in spreads && s.id == id) ==> exists s :: s in spreads && s.id == id && r == s.categories
  {
    match FindSpread(spreads, id)
    case Some(s) => s.categories
    case None => []
  }

  /** When several spreads share the id, the first of them gives the categories. */
  lemma ListCategoriesOfFirst(spreads: seq<Spread>, id: string, j: nat)
    requires j < |spreads| && spreads[j].id == id
    requires forall i :: 0 <= i < j ==> spreads[i].id != id
    ensures ListCategoriesForSpread(spreads, id) == spreads[j].categories
  {
    FindSpreadFirst(spreads, id, j);
  }

  /** `resolveIntentionLabel(intention, vars)`: the label with its placeholders substituted;
    * a caller that passes no variables passes the empty map. */
  function ResolveIntentionLabel(i: Intention, vars: map<string, string>): string
  {
    SubstituteVars(i.text, vars)
  }

  /** A label without placeholders is shown as it is, whatever the variables. */
  lemma ResolveWithoutPlaceholders(i: Intention, vars: map<string, string>)
    requires Names(i.text) == {}
    ensures ResolveIntentionLabel(i, vars) == i.text
  {
    NoPlaceholdersUnchanged(i.text, BlankFill(vars));
  }

  /** With the default empty variables, every placeholder becomes five underscores. */
  lemma ResolveDefaultBlanksAll(i: Intention)
    ensures ResolveIntentionLabel(i, map[]) == Replace(i.text, k => "_____")
  {
    FillsAgree(i.text, BlankFill(map[]), k => "_____");
  }

  /** A label with one placeholder, resolved with the default variables: the placeholder
    * becomes five underscores and the rest of the label is kept. */
  lemma ResolveDefaultOnePlaceholder(i: Intention, p: string, k: string, q: string)
    requires i.text == p + "${" + k + "}" + q
    requires '$' !in p && '$' !in q && IsWord(k)
    ensures ResolveIntentionLabel(i, map[]) == p + "_____" + q
  {
    OnePlaceholder(p, k, q, BlankFill(map[]));
  }

  /** A label naming the partner, resolved with their name, shows the name in its place. */
  lemma ResolveRelationshipName(i: Intention, p: string, q: string, name: string)
    requires i.text == p + "${relationshipName}" + q
    requires '$' !in p && '$' !in q
    ensures ResolveIntentionLabel(i, map["relationshipName" := name]) == p + name + q
  {
    RelationshipNameIsWord();
    assert i.text == p + "${" + "relationshipName" + "}" + q;
    OnePlaceholder(p, "relationshipName", q, BlankFill(map["relationshipName" := name]));
  }
}
