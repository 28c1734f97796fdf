/** `Array.prototype.sort(compare)`, which is stable: each element is placed
    before the first later-sorted element it compares at most equal to. For a
    comparator that is consistent this is the one stable order the
    comparator allows, whatever algorithm the engine runs. */
module Sorting {

  /** `x` inserted in front of the first element it does not compare above. */
  function Insert<T>(x: T, s: seq<T>, compare: (T, T) -> int): (r: seq<T>)
    ensures |r| == |s| + 1
    ensures multiset(r) == multiset(s) + multiset{x}
    ensures r[0] == x || (|s| > 0 && r[0] == s[0])
    decreases |s|
  {
    if |s| == 0 || compare(x, s[0]) <= 0 then [x] + s
    else
      assert s == [s[0]] + s[1..];
      [s[0]] + Insert(x, s[1..], compare)
  }

  /** The sorted copy; the result is a permutation of the input. */
  function SortWith<T>(s: seq<T>, compare: (T, T) -> int): (r: seq<T>)
    ensures |r| == |s|
    ensures multiset(r) == multiset(s)
    decreases |s|
  {
    if |s| == 0 then []
    else
      assert s == [s[0]] + s[1..];
      Insert(s[0], SortWith(s[1..], compare), compare)
  }

  /** Of every two values, one compares at most equal to the other: true of
      any comparator that is a difference of keys, or antisymmetric. */
  ghost predicate Total<T(!new)>(compare: (T, T) -> int) {
    forall a: T, b: T :: compare(a, b) <= 0 || compare(b, a) <= 0
  }

  /** Each element compares at most equal to the next. */
  predicate Ordered<T>(s: seq<T>, compare: (T, T) -> int) {
    forall i :: 0 <= i < |s| - 1 ==> compare(s[i], s[i + 1]) <= 0
  }

  lemma {:induction false} InsertOrdered<T(!new)>(x: T, s: seq<T>, compare: (T, T) -> int)
    requires Total(compare) && Ordered(s, compare)
    ensures Ordered(Insert(x, s, compare), compare)
    decreases |s|
  {
    if |s| > 0 && compare(x, s[0]) > 0 {
      assert compare(s[0], x) <= 0;
      var rest := Insert(x, s[1..], compare);
      assert Ordered(s[1..], compare) by {
        forall i | 0 <= i < |s[1..]| - 1 ensures compare(s[1..][i], s[1..][i + 1]) <= 0 {
          assert s[1..][i] == s[i + 1] && s[1..][i + 1] == s[i + 2];
        }
      }
      InsertOrdered(x, s[1..], compare);
      var r := [s[0]] + rest;
      forall i | 0 <= i < |r| - 1 ensures compare(r[i], r[i + 1]) <= 0 {
        if i > 0 {
          assert r[i] == rest[i - 1] && r[i + 1] == rest[i];
        }
      }
    }
  }

  /** With a total comparator the result is ordered. */
  lemma {:induction false} SortOrdered<T(!new)>(s: seq<T>, compare: (T, T) -> int)
    requires Total(compare)
    ensures Ordered(SortWith(s, compare), compare)
    decreases |s|
  {
    if |s| > 0 {
      SortOrdered(s[1..], compare);
      InsertOrdered(s[0], SortWith(s[1..], compare), compare);
    }
  }

  /** Sorting by a key, `(a, b) => key(a) - key(b)`. */
  function ByKey<T>(key: T -> int): (T, T) -> int {
    (a: T, b: T) => key(a) - key(b)
  }

  /** Sorting by a key gives keys that never decrease, between any two
      positions and not only neighbours. */
  lemma {:induction false} SortByKey<T(!new)>(s: seq<T>, key: T -> int)
    ensures var r := SortWith(s, ByKey(key));
      forall i, j :: 0 <= i <= j < |r| ==> key(r[i]) <= key(r[j])
  {
    var r := SortWith(s, ByKey(key));
    SortOrdered(s, ByKey(key));
    forall i, j | 0 <= i <= j < |r| ensures key(r[i]) <= key(r[j]) {
      Chain(r, key, i, j);
    }
  }

  lemma {:induction false} Chain<T>(r: seq<T>, key: T -> int, i: nat, j: nat)
    requires i <= j < |r|
    requires Ordered(r, ByKey(key))
    ensures key(r[i]) <= key(r[j])
    decreases j - i
  {
    if i < j {
      assert ByKey(key)(r[i], r[i + 1]) <= 0;
      Chain(r, key, i + 1, j);
    }
  }
}
