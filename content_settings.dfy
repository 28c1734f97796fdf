/** The replace-word and exclude-word editors (src/components/settings/ContentSettings.tsx).
    Each handler computes a new list from the current one and hands it to
    `updateSettings` as the only key of the update. */
module ContentSettings {
  import opened Prelude
  import opened AppSettings
  import ContentRules

  /** `addReplaceWord`: a blank rule goes to the end. */
  function AddReplaceWord(rules: seq<ReplaceRule>): (r: seq<ReplaceRule>)
    ensures |r| == |rules| + 1 && r[..|rules|] == rules && r[|rules|] == ReplaceRule("", "")
  {
    rules + [ReplaceRule("", "")]
  }

  /** The two fields of a rule the table edits. */
  datatype RuleField = From | To

  function SetField(rule: ReplaceRule, field: RuleField, value: string): ReplaceRule {
    match field
    case From => rule.(from := value)
    case To => rule.(to := value)
  }

  /** `updateReplaceWord(index, field, value)`: one field of entry `index`, nothing else. */
  function UpdateReplaceWord(rules: seq<ReplaceRule>, index: int, field: RuleField, value: string): (r: seq<ReplaceRule>)
    ensures |r| == |rules|
    ensures forall k :: 0 <= k < |r| && k != index ==> r[k] == rules[k]
    ensures 0 <= index < |r| && field == From ==> r[index] == ReplaceRule(value, rules[index].to)
    ensures 0 <= index < |r| && field == To ==> r[index] == ReplaceRule(rules[index].from, value)
  {
    UpdateIndex(rules, index, (x: ReplaceRule) => SetField(x, field, value))
  }

  /** `addExcludeWord`: a blank word goes to the end. */
  function AddExcludeWord(words: seq<string>): (r: seq<string>)
    ensures |r| == |words| + 1 && r[..|words|] == words && r[|words|] == ""
  {
    words + [""]
  }

  /** `updateExcludeWord(index, value)`. */
  function UpdateExcludeWord(words: seq<string>, index: int, value: string): (r: seq<string>)
    ensures |r| == |words|
    ensures forall k :: 0 <= k < |r| && k != index ==> r[k] == words[k]
    ensures 0 <= index < |r| ==> r[index] == value
  {
    UpdateIndex(words, index, (_: string) => value)
  }

  /** Adding a row and removing it again gives the original list back. */
  lemma RemoveUndoesAdd(rules: seq<ReplaceRule>, words: seq<string>)
    ensures RemoveIndex(AddReplaceWord(rules), |rules|) == rules
    ensures RemoveIndex(AddExcludeWord(words), |words|) == words
  {
    assert AddReplaceWord(rules)[..|rules|] == rules;
    assert AddExcludeWord(words)[..|words|] == words;
  }

  /** The blank replace row does not alter any rewrite, so adding it is harmless. */
  lemma BlankRuleHarmless(text: string, rules: seq<ReplaceRule>)
    ensures ContentRules.Rewrite(text, AddReplaceWord(rules)) == ContentRules.Rewrite(text, rules)
  {
    ContentRules.RewriteAppend(text, rules, [ReplaceRule("", "")]);
    ContentRules.EmptyRuleIsIdentity(ContentRules.Rewrite(text, rules));
    var t := ContentRules.Rewrite(text, rules);
    assert ContentRules.Rewrite(t, [ReplaceRule("", "")]) == ContentRules.Rewrite(t, []);
  }

  /** The blank exclude row, until it is filled in, excludes every product. */
  lemma BlankWordExcludesEverything(text: string, words: seq<string>)
    ensures ContentRules.Excluded(text, AddExcludeWord(words))
  {
    ContentRules.EmptyWordExcludesAll(text, AddExcludeWord(words));
  }
}
