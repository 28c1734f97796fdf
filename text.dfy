/** The string operations of JavaScript that the application relies on, stated on
    `seq<char>`: `toLowerCase` (ASCII letters only), `includes`, `startsWith`,
    `replace` with a global case-insensitive literal pattern, `split`/`join` on a
    one-character separator, `trim`, `slice`, and decimal rendering of numbers. */
module Text {
  import opened Prelude

  // ---------------------------------------------------------------- case

  /** `toLowerCase` on one character; only the ASCII capital letters change. */
  function LowerChar(c: char): char {
    if 'A' <= c <= 'Z' then (c as int + 32) as char else c
  }

  function Lower(s: string): (r: string)
    ensures |r| == |s|
    ensures forall i :: 0 <= i < |s| ==> r[i] == LowerChar(s[i])
  {
    seq(|s|, i requires 0 <= i < |s| => LowerChar(s[i]))
  }

  lemma LowerSlice(s: string, a: nat, b: nat)
    requires a <= b <= |s|
    ensures Lower(s[a..b]) == Lower(s)[a..b]
  {
  }

  lemma LowerAppend(s: string, t: string)
    ensures Lower(s + t) == Lower(s) + Lower(t)
  {
  }

  // ---------------------------------------------------------------- search

  predicate StartsWith<T(==)>(s: seq<T>, p: seq<T>) {
    |p| <= |s| && s[..|p|] == p
  }

  /** `s.includes(p)`: some position of `s` starts an occurrence of `p`. */
  predicate Contains<T(==)>(s: seq<T>, p: seq<T>)
    decreases |s|
  {
    StartsWith(s, p) || (|s| > 0 && Contains(s[1..], p))
  }

  /** `p` occurs in `s` starting at index `i`. */
  predicate OccursAt<T(==)>(s: seq<T>, p: seq<T>, i: int) {
    0 <= i && i + |p| <= |s| && s[i..i + |p|] == p
  }

  /** Contains agrees with "some index i has s[i..i+|p|] == p". */
  lemma {:induction false} ContainsAt<T>(s: seq<T>, p: seq<T>)
    ensures Contains(s, p) <==> exists i :: OccursAt(s, p, i)
    decreases |s|
  {
    if |s| > 0 {
      ContainsAt(s[1..], p);
      if StartsWith(s, p) {
        assert OccursAt(s, p, 0);
      } else if Contains(s[1..], p) {
        var i :| OccursAt(s[1..], p, i);
        assert s[i + 1..i + 1 + |p|] == s[1..][i..i + |p|];
        assert OccursAt(s, p, i + 1);
      }
      if exists i :: OccursAt(s, p, i) {
        var i :| OccursAt(s, p, i);
        if i > 0 {
          assert s[1..][i - 1..i - 1 + |p|] == s[i..i + |p|];
          assert OccursAt(s[1..], p, i - 1);
        }
      }
    } else {
      if p == [] {
        assert OccursAt(s, p, 0);
      }
      if exists i :: OccursAt(s, p, i) {
        var i :| OccursAt(s, p, i);
        assert p == [];
      }
    }
  }

  /** The empty string is contained in every string (`"x".includes("")` is true). */
  lemma ContainsEmpty<T>(s: seq<T>)
    ensures Contains(s, [])
  {
  }

  /** Case-insensitive `includes`: both sides go through `toLowerCase` first. */
  predicate ContainsCI(text: string, word: string) {
    Contains(Lower(text), Lower(word))
  }

  // ---------------------------------------------------------------- replace

  /** What `s.replace(new RegExp('', 'g'), rep)` produces: `rep` before every
      character and once more at the end (its block shape is
      `ContentRules.EmptyPatternInserts`). */
  function InsertEverywhere(s: string, rep: string): string
    decreases |s|
  {
    if s == [] then rep else rep + [s[0]] + InsertEverywhere(s[1..], rep)
  }

  /** Dropping the first `i` blocks `rep + [c]` leaves the insertion into the rest of `s`. */
  lemma {:induction false} DropBlocks(s: string, rep: string, i: nat)
    requires i <= |s|
    ensures i * (|rep| + 1) <= |InsertEverywhere(s, rep)|
    ensures InsertEverywhere(s, rep)[i * (|rep| + 1)..] == InsertEverywhere(s[i..], rep)
    decreases i
  {
    if i > 0 {
      var n := |rep| + 1;
      DropBlocks(s[1..], rep, i - 1);
      assert s[1..][i - 1..] == s[i..];
      var a := (i - 1) * n;
      assert i * n == a + n;
      assert InsertEverywhere(s, rep) == (rep + [s[0]]) + InsertEverywhere(s[1..], rep);
    }
  }

  /** Block `i` of `InsertEverywhere(s, rep)` is `rep` followed by `s[i]`. */
  lemma BlockAt(s: string, rep: string, i: nat)
    requires i < |s|
    ensures i * (|rep| + 1) + |rep| + 1 <= |InsertEverywhere(s, rep)|
    ensures InsertEverywhere(s, rep)[i * (|rep| + 1) .. i * (|rep| + 1) + |rep| + 1] == rep + [s[i]]
  {
    DropBlocks(s, rep, i);
    var r := InsertEverywhere(s, rep);
    var k := i * (|rep| + 1);
    assert InsertEverywhere(s[i..], rep) == rep + [s[i]] + InsertEverywhere(s[i + 1..], rep);
    assert r[k .. k + |rep| + 1] == r[k..][..|rep| + 1];
  }

  /** Leftmost, non-overlapping, case-insensitive replacement of a non-empty literal
      pattern, scanning left to right and resuming after each match. */
  function ReplaceLiteral(s: string, pat: string, rep: string): string
    requires pat != []
    decreases |s|
  {
    if |s| < |pat| then s
    else if Lower(s[..|pat|]) == Lower(pat) then rep + ReplaceLiteral(s[|pat|..], pat, rep)
    else [s[0]] + ReplaceLiteral(s[1..], pat, rep)
  }

  /** `s.replace(new RegExp(pat, 'gi'), rep)` for a pattern made of ordinary characters. */
  function ReplaceAllCI(s: string, pat: string, rep: string): string {
    if pat == [] then InsertEverywhere(s, rep) else ReplaceLiteral(s, pat, rep)
  }

  /** A non-empty pattern that does not occur (ignoring case) leaves the text unchanged. */
  lemma {:induction false} ReplaceAbsent(s: string, pat: string, rep: string)
    requires pat != [] && !ContainsCI(s, pat)
    ensures ReplaceAllCI(s, pat, rep) == s
    decreases |s|
  {
    if |s| >= |pat| {
      LowerSlice(s, 0, |pat|);
      LowerSlice(s, 1, |s|);
      assert Lower(s)[1..] == Lower(s[1..]);
      ReplaceAbsent(s[1..], pat, rep);
    }
  }

  /** Every occurrence is replaced: a text that is exactly the pattern (in any
      case) becomes the replacement. */
  lemma ReplaceWhole(s: string, pat: string, rep: string)
    requires pat != [] && Lower(s) == Lower(pat)
    ensures ReplaceAllCI(s, pat, rep) == rep
  {
    assert |s| == |pat|;
    assert s[..|pat|] == s;
    assert s[|pat|..] == [];
    assert ReplaceLiteral([], pat, rep) == [];
  }

  // ---------------------------------------------------------------- split / join

  /** `s.split(c)` for a one-character separator. */
  function Split(s: string, c: char): (r: seq<string>)
    ensures |r| >= 1
    decreases |s|
  {
    if |s| == 0 then [""]
    else
      var rest := Split(s[1..], c);
      if s[0] == c then [""] + rest else [[s[0]] + rest[0]] + rest[1..]
  }

  /** `parts.join(sep)`. */
  function Join(parts: seq<string>, sep: string): string
    decreases |parts|
  {
    if |parts| == 0 then ""
    else if |parts| == 1 then parts[0]
    else parts[0] + sep + Join(parts[1..], sep)
  }

  /** Joining the pieces of a split with the separator gives back the string. */
  lemma {:induction false} JoinSplit(s: string, c: char)
    ensures Join(Split(s, c), [c]) == s
    decreases |s|
  {
    if |s| > 0 {
      var rest := Split(s[1..], c);
      JoinSplit(s[1..], c);
      if s[0] == c {
        assert Split(s, c) == [""] + rest;
        assert Join([""] + rest, [c]) == "" + [c] + Join(rest, [c]) by {
          assert ([""] + rest)[1..] == rest;
        }
        assert s == [c] + s[1..];
      } else {
        assert Split(s, c) == [[s[0]] + rest[0]] + rest[1..];
        if |rest| == 1 {
          assert s == [s[0]] + s[1..];
        } else {
          assert Join(rest, [c]) == rest[0] + [c] + Join(rest[1..], [c]);
          var parts := [[s[0]] + rest[0]] + rest[1..];
          assert parts[1..] == rest[1..];
          assert Join(parts, [c]) == [s[0]] + rest[0] + [c] + Join(rest[1..], [c]);
          assert s == [s[0]] + s[1..];
        }
      }
    }
  }

  /** No piece of a split contains the separator. */
  lemma {:induction false} SplitPiecesFree(s: string, c: char)
    ensures forall k :: 0 <= k < |Split(s, c)| ==> c !in Split(s, c)[k]
    decreases |s|
  {
    if |s| > 0 {
      SplitPiecesFree(s[1..], c);
    }
  }

  /** The split has a single piece exactly when the separator does not occur, and
      that piece is the whole string. */
  lemma {:induction false} SplitSingle(s: string, c: char)
    ensures (|Split(s, c)| == 1) <==> c !in s
    ensures c !in s ==> Split(s, c) == [s]
    decreases |s|
  {
    if |s| > 0 {
      SplitSingle(s[1..], c);
      assert s == [s[0]] + s[1..];
    }
  }

  // ---------------------------------------------------------------- trimming

  /** `s.replace(/c+$/, '')`: the maximal run of `c` at the end is removed. */
  function StripTrailing(s: string, c: char): (r: string)
    decreases |s|
  {
    if |s| > 0 && s[|s| - 1] == c then StripTrailing(s[..|s| - 1], c) else s
  }

  lemma {:induction false} StripTrailingSpec(s: string, c: char)
    ensures var r := StripTrailing(s, c);
      && |r| <= |s| && s[..|r|] == r
      && (|r| > 0 ==> r[|r| - 1] != c)
      && (forall k :: |r| <= k < |s| ==> s[k] == c)
    decreases |s|
  {
    if |s| > 0 && s[|s| - 1] == c {
      StripTrailingSpec(s[..|s| - 1], c);
    }
  }

  /** JavaScript's white space and line terminators, as `trim` removes them. */
  predicate IsJsSpace(c: char) {
    c == '\t' || c == '\n' || c == '\U{000B}' || c == '\U{000C}' || c == '\r' || c == ' '
    || c == '\U{00A0}' || c == '\U{1680}' || ('\U{2000}' <= c <= '\U{200A}')
    || c == '\U{2028}' || c == '\U{2029}' || c == '\U{202F}' || c == '\U{205F}'
    || c == '\U{3000}' || c == '\U{FEFF}'
  }

  function TrimStart(s: string): string
    decreases |s|
  {
    if |s| > 0 && IsJsSpace(s[0]) then TrimStart(s[1..]) else s
  }

  function TrimEnd(s: string): string
    decreases |s|
  {
    if |s| > 0 && IsJsSpace(s[|s| - 1]) then TrimEnd(s[..|s| - 1]) else s
  }

  /** `s.trim()`. */
  function Trim(s: string): string {
    TrimEnd(TrimStart(s))
  }

  lemma {:induction false} TrimStartSpec(s: string)
    ensures var r := TrimStart(s);
      |r| <= |s| && r == s[|s| - |r|..] && (|r| > 0 ==> !IsJsSpace(r[0]))
    decreases |s|
  {
    if |s| > 0 && IsJsSpace(s[0]) {
      TrimStartSpec(s[1..]);
    }
  }

  lemma {:induction false} TrimEndSpec(s: string)
    ensures var r := TrimEnd(s);
      |r| <= |s| && r == s[..|r|] && (|r| > 0 ==> !IsJsSpace(r[|r| - 1]))
    decreases |s|
  {
    if |s| > 0 && IsJsSpace(s[|s| - 1]) {
      TrimEndSpec(s[..|s| - 1]);
    }
  }

  /** A trimmed string neither starts nor ends with white space. */
  lemma TrimSpec(s: string)
    ensures var r := Trim(s);
      |r| <= |s| && (|r| > 0 ==> !IsJsSpace(r[0]) && !IsJsSpace(r[|r| - 1]))
  {
    TrimStartSpec(s);
    var t := TrimStart(s);
    TrimEndSpec(t);
    var r := TrimEnd(t);
    if |r| > 0 {
      assert r[0] == t[0];
    }
  }

  // ---------------------------------------------------------------- slicing

  /** Resolves a `slice` index: negative indices count from the end, and the
      result is clamped to `[0, len]`. */
  function SliceIndex(i: int, len: nat): (k: nat)
    ensures k <= len
  {
    if i < 0 then (if len + i < 0 then 0 else len + i) else if i > len then len else i
  }

  /** `s.slice(start, end)`. */
  function Slice<T>(s: seq<T>, start: int, end: int): seq<T> {
    var a := SliceIndex(start, |s|);
    var b := SliceIndex(end, |s|);
    if a >= b then [] else s[a..b]
  }

  // ---------------------------------------------------------------- numbers

  function DigitChar(d: nat): char
    requires d < 10
  {
    ('0' as int + d) as char
  }

  /** Decimal rendering of a natural number, as `n.toString()` gives it. */
  function NatStr(n: nat): (r: string)
    ensures |r| >= 1
    decreases n
  {
    if n < 10 then [DigitChar(n)] else NatStr(n / 10) + [DigitChar(n % 10)]
  }

  function IntStr(i: int): string {
    if i < 0 then "-" + NatStr(-i) else NatStr(i)
  }

  predicate IsDigit(c: char) { '0' <= c <= '9' }

  /** A rendered number is made of digits only, so it never contains a separator
      such as '-' or '/'. */
  lemma {:induction false} NatStrDigits(n: nat)
    ensures forall k :: 0 <= k < |NatStr(n)| ==> IsDigit(NatStr(n)[k])
    decreases n
  {
    if n >= 10 {
      NatStrDigits(n / 10);
    }
  }
}
