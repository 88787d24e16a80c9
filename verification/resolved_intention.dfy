/** `useResolvedIntention(store)`: the intention text a reading is saved with, taken from the
  * intention store's state. */
module ResolvedIntention {
  import opened Common
  import opened IntentionStore

  /** What `String.prototype.trim` removes: the white space and line terminator characters
    * of ECMAScript. */
  predicate IsJsSpace(c: char)
  {
    c == '\t' || c == '\n' || c == '\U{000B}' || c == '\U{000C}' || c == '\r' || c == ' ' ||
    c == '\U{00A0}' || c == '\U{1680}' || ('\U{2000}' <= c <= '\U{200A}') ||
    c == '\U{2028}' || c == '\U{2029}' || c == '\U{202F}' || c == '\U{205F}' ||
    c == '\U{3000}' || c == '\U{FEFF}'
  }

  predicate AllSpace(s: string)
  {
    forall i :: 0 <= i < |s| ==> IsJsSpace(s[i])
  }

  /** The number of white space characters `s` starts with. */
  function LeadingSpace(s: string): (n: nat)
    ensures n <= |s| && AllSpace(s[..n]) && (n == |s| || !IsJsSpace(s[n]))
  {
    if |s| > 0 && IsJsSpace(s[0]) then
      var n := 1 + LeadingSpace(s[1..]);
      assert s[..n] == [s[0]] + s[1..][..n - 1];
      n
    else 0
  }

  /** The number of white space characters `s` ends with. */
  function TrailingSpace(s: string): (n: nat)
    ensures n <= |s| && AllSpace(s[|s| - n..]) && (n == |s| || !IsJsSpace(s[|s| - n - 1]))
  {
    if |s| > 0 && IsJsSpace(s[|s| - 1]) then
      var t := s[..|s| - 1];
      var n := 1 + TrailingSpace(t);
      assert s[|s| - n..] == t[|t| - (n - 1)..] + [s[|s| - 1]];
      n
    else 0
  }

  /** `s.trim()`: `s` without its leading and trailing white space. */
  function Trim(s: string): string
  {
    var i := LeadingSpace(s);
    var j := TrailingSpace(s[i..]);
    s[i..|s| - j]
  }

  /** The trimmed text is a middle part of the text: only white space is cut on either side,
    * and it neither starts nor ends with white space. */
  lemma TrimMeaning(s: string)
    ensures var r := Trim(s);
      exists i, j :: 0 <= i <= j <= |s| && r == s[i..j] && AllSpace(s[..i]) && AllSpace(s[j..])
    ensures var r := Trim(s);
      |r| == 0 || (!IsJsSpace(r[0]) && !IsJsSpace(r[|r| - 1]))
  {
    var i := LeadingSpace(s);
    var t := s[i..];
    var j := TrailingSpace(t);
    assert Trim(s) == s[i..|s| - j];
    assert s[|s| - j..] == t[|t| - j..];
    if |s| - j > i {
      assert Trim(s)[0] == s[i];
      assert Trim(s)[|Trim(s)| - 1] == t[|t| - j - 1];
    }
  }

  /** Trimming twice is trimming once. */
  lemma TrimIdempotent(s: string)
    ensures Trim(Trim(s)) == Trim(s)
  {
    var r := Trim(s);
    TrimMeaning(s);
    if |r| > 0 {
      assert LeadingSpace(r) == 0;
      assert TrailingSpace(r) == 0;
      assert r[0..|r| - 0] == r;
    }
  }

  /** `s.mode === "custom" ? s.customText.trim() : (s.presetLabel ?? "")`. */
  function Resolve(st: IntentionState): string
  {
    if st.mode == Custom then Trim(st.customText) else st.presetLabel.GetOr("")
  }

  /** In custom mode only the text counts, in preset mode only the preset's label: two states
    * that agree on what their mode reads resolve alike. */
  lemma ResolveReadsOnlyItsMode(s1: IntentionState, s2: IntentionState)
    requires s1.mode == s2.mode
    requires s1.mode == Custom ==> s1.customText == s2.customText
    requires s1.mode == Preset ==> s1.presetLabel == s2.presetLabel
    ensures Resolve(s1) == Resolve(s2)
  {
  }

  /** A custom intention comes out trimmed; a preset one is its label, or empty without one. */
  lemma ResolveMeaning(st: IntentionState)
    ensures st.mode == Custom ==>
      var r := Resolve(st);
      |r| <= |st.customText| && (|r| == 0 || (!IsJsSpace(r[0]) && !IsJsSpace(r[|r| - 1])))
    ensures st.mode == Preset && st.presetLabel.Some? ==> Resolve(st) == st.presetLabel.value
    ensures st.mode == Preset && st.presetLabel.None? ==> Resolve(st) == ""
  {
    TrimMeaning(st.customText);
  }

  /** The initial state resolves to the empty text. */
  lemma InitialResolvesEmpty()
    ensures Resolve(INITIAL) == ""
  {
  }
}
