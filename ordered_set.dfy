/** JavaScript `Set`s as the pages use them: duplicate-free sequences in
    insertion order, with `new Set(array)`, `add`, `delete`, `has` and the
    copy-then-flip toggle several pages write out. */
module OrderedSet {

  predicate NoDup<T(==,!new)>(s: seq<T>) {
    forall i, j :: 0 <= i < j < |s| ==> s[i] != s[j]
  }

  /** `new Set(array)`: first occurrences, in order. */
  function FromSeq<T(==,!new)>(s: seq<T>): (r: seq<T>)
    ensures NoDup(r)
    ensures forall x :: x in r <==> x in s
    ensures |r| <= |s|
    decreases |s|
  {
    if |s| == 0 then []
    else
      var r := FromSeq(s[..|s| - 1]);
      assert forall x :: x in s <==> x in s[..|s| - 1] || x == s[|s| - 1];
      if s[|s| - 1] in r then r else r + [s[|s| - 1]]
  }

  /** A sequence that has no duplicates is its own set. */
  lemma {:induction false} FromSeqNoDup<T(!new)>(s: seq<T>)
    requires NoDup(s)
    ensures FromSeq(s) == s
    decreases |s|
  {
    if |s| > 0 {
      FromSeqNoDup(s[..|s| - 1]);
      assert s[|s| - 1] !in s[..|s| - 1];
      assert s == s[..|s| - 1] + [s[|s| - 1]];
    }
  }

  /** `set.delete(x)` on a copy. */
  function Delete<T(==,!new)>(s: seq<T>, x: T): (r: seq<T>)
    ensures forall y :: y in r <==> y in s && y != x
    ensures NoDup(s) ==> NoDup(r)
    ensures x !in s ==> r == s
    decreases |s|
  {
    if |s| == 0 then []
    else if s[0] == x then Delete(s[1..], x)
    else
      var r := Delete(s[1..], x);
      assert forall y :: y in s <==> y == s[0] || y in s[1..];
      assert NoDup(s) ==> NoDup(s[1..]) && s[0] !in s[1..] && s[0] !in r;
      [s[0]] + r
  }

  /** `set.add(x)` on a copy: a new element goes to the end. */
  function Add<T(==,!new)>(s: seq<T>, x: T): (r: seq<T>)
    ensures forall y :: y in r <==> y in s || y == x
    ensures NoDup(s) ==> NoDup(r)
  {
    if x in s then s else s + [x]
  }

  /** `has(x) ? delete(x) : add(x)` on a copy of the set. */
  function Toggle<T(==,!new)>(s: seq<T>, x: T): (r: seq<T>)
    ensures (x in r) <==> (x !in s)
    ensures forall y :: y != x ==> (y in r <==> y in s)
    ensures NoDup(s) ==> NoDup(r)
  {
    if x in s then Delete(s, x) else Add(s, x)
  }

  /** Toggling the same element twice restores the membership of every element;
      when the element was absent it restores the sequence itself (when it was
      present it comes back at the end). */
  lemma ToggleTwice<T(!new)>(s: seq<T>, x: T)
    requires NoDup(s)
    ensures forall y :: y in Toggle(Toggle(s, x), x) <==> y in s
    ensures x !in s ==> Toggle(Toggle(s, x), x) == s
  {
    if x !in s {
      DeleteLast(s, x);
    }
  }

  lemma {:induction false} DeleteLast<T(!new)>(s: seq<T>, x: T)
    requires x !in s
    ensures Delete(s + [x], x) == s
    decreases |s|
  {
    if |s| == 0 {
      assert Delete([x], x) == Delete([x][1..], x);
    } else {
      assert (s + [x])[0] == s[0] && (s + [x])[1..] == s[1..] + [x];
      DeleteLast(s[1..], x);
    }
  }
}
