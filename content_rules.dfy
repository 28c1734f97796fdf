/** The two text rules of the content settings, shared by the product list and
    both publishers: exclude words, matched case-insensitively anywhere in a text,
    and replace rules, applied in list order with `replace(new RegExp(from, 'gi'), to)`
    where `from` is read as a literal (src/components/ProductList.tsx:24-41,
    src/services/woocommerceApi.ts:140-156, src/services/api/woocommerce/products.ts:99-114). */
module ContentRules {
  import opened Prelude
  import opened Text
  import opened AppSettings

  predicate MatchesWord(text: string, word: string) {
    ContainsCI(text, word)
  }

  /** `excludeWords.filter(word => text.toLowerCase().includes(word.toLowerCase()))`. */
  function MatchedWords(text: string, words: seq<string>): (r: seq<string>)
    ensures |r| <= |words|
    ensures forall k :: 0 <= k < |r| ==> MatchesWord(text, r[k]) && r[k] in words
    ensures forall k :: 0 <= k < |words| && MatchesWord(text, words[k]) ==> words[k] in r
    decreases |words|
  {
    if |words| == 0 then []
    else (if MatchesWord(text, words[0]) then [words[0]] else []) + MatchedWords(text, words[1..])
  }

  /** `excludeWords.some(...)`: the text holds some exclude word. */
  predicate Excluded(text: string, words: seq<string>) {
    exists k :: 0 <= k < |words| && MatchesWord(text, words[k])
  }

  /** A text is excluded exactly when the list of matched words is non-empty. */
  lemma ExcludedIffMatched(text: string, words: seq<string>)
    ensures Excluded(text, words) <==> |MatchedWords(text, words)| > 0
  {
    if Excluded(text, words) {
      var k :| 0 <= k < |words| && MatchesWord(text, words[k]);
      assert words[k] in MatchedWords(text, words);
    }
  }

  /** Matching keeps configuration order and duplicates: when every word matches,
      the matched list is the word list itself. */
  lemma {:induction false} AllMatchKeepsList(text: string, words: seq<string>)
    requires forall k :: 0 <= k < |words| ==> MatchesWord(text, words[k])
    ensures MatchedWords(text, words) == words
    decreases |words|
  {
    if |words| > 0 {
      AllMatchKeepsList(text, words[1..]);
    }
  }

  /** An empty exclude word is contained in every text, so it excludes everything. */
  lemma EmptyWordExcludesAll(text: string, words: seq<string>)
    requires "" in words
    ensures Excluded(text, words)
  {
    var k :| 0 <= k < |words| && words[k] == "";
    ContainsEmpty(Lower(text));
    assert Lower("") == "";
    assert MatchesWord(text, words[k]);
  }

  /** `rules.forEach(({from, to}) => { text = text.replace(new RegExp(from, 'gi'), to) })`. */
  function Rewrite(text: string, rules: seq<ReplaceRule>): string
    decreases |rules|
  {
    if |rules| == 0 then text
    else Rewrite(ReplaceAllCI(text, rules[0].from, rules[0].to), rules[1..])
  }

  /** Rules apply one after another in list order: a list is its prefix followed
      by its suffix. */
  lemma {:induction false} RewriteAppend(text: string, a: seq<ReplaceRule>, b: seq<ReplaceRule>)
    ensures Rewrite(text, a + b) == Rewrite(Rewrite(text, a), b)
    decreases |a|
  {
    if |a| == 0 {
      assert a + b == b;
    } else {
      assert (a + b)[0] == a[0] && (a + b)[1..] == a[1..] + b;
      RewriteAppend(ReplaceAllCI(text, a[0].from, a[0].to), a[1..], b);
    }
  }

  /** A rule whose pattern does not occur in the current text changes nothing. */
  lemma RewriteSkipsAbsent(text: string, r: ReplaceRule, rest: seq<ReplaceRule>)
    requires r.from != "" && !ContainsCI(text, r.from)
    ensures Rewrite(text, [r] + rest) == Rewrite(text, rest)
  {
    ReplaceAbsent(text, r.from, r.to);
    assert ([r] + rest)[1..] == rest;
  }

  /** The blank rule {from: '', to: ''} that the editor creates changes nothing,
      although an empty pattern matches at every position. */
  lemma {:induction false} EmptyRuleIsIdentity(text: string)
    ensures ReplaceAllCI(text, "", "") == text
    decreases |text|
  {
    if |text| > 0 {
      EmptyRuleIsIdentity(text[1..]);
      assert text == [text[0]] + text[1..];
    }
  }

  /** An empty pattern matches before every character and at the end, so the
      replacement is inserted between all characters and at both ends: the text
      splits into blocks of `rep` followed by one original character, then a last `rep`. */
  lemma EmptyPatternInserts(s: string, rep: string)
    ensures var r := ReplaceAllCI(s, "", rep); var n := |rep| + 1;
      |r| == |s| * n + |rep|
      && (forall i :: 0 <= i < |s| ==> r[i * n .. i * n + n] == rep + [s[i]])
      && r[|s| * n..] == rep
  {
    DropBlocks(s, rep, |s|);
    assert s[|s|..] == [];
    forall i | 0 <= i < |s|
      ensures InsertEverywhere(s, rep)[i * (|rep| + 1) .. i * (|rep| + 1) + |rep| + 1] == rep + [s[i]]
    {
      BlockAt(s, rep, i);
    }
  }
}
