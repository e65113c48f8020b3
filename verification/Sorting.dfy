/** Sorting by the bytes of a text, and what a sorted list does not remember: the order it came in. */
module Sorting {
  import opened Text

  /** Bytewise lexicographic order. */
  predicate AtMost(a: Bytes, b: Bytes) {
    a == [] || (b != [] && (a[0] < b[0] || (a[0] == b[0] && AtMost(a[1..], b[1..]))))
  }

  /** The first byte in which two texts differ is the smaller one's. */
  ghost predicate FirstDifference(a: Bytes, b: Bytes, i: nat) {
    i < |a| && i < |b| && a[..i] == b[..i] && a[i] < b[i]
  }

  lemma StartAlike(a: Bytes, b: Bytes)
    requires a != [] && b != []
    ensures forall i: nat :: i > 0 && FirstDifference(a, b, i) ==> a[0] == b[0]
  {
    forall i: nat | i > 0 && FirstDifference(a, b, i) ensures a[0] == b[0] {
      assert a[..i][0] == a[0] && b[..i][0] == b[0];
    }
  }

  /** A text comes first exactly when it begins the other, or is smaller in the first byte that differs. */
  lemma {:induction false} AtMostIff(a: Bytes, b: Bytes)
    ensures AtMost(a, b) <==> a <= b || exists i: nat :: FirstDifference(a, b, i)
  {
    if a != [] && b != [] && a[0] == b[0] {
      AtMostIff(a[1..], b[1..]);
      assert a == [a[0]] + a[1..] && b == [b[0]] + b[1..];
      if i: nat :| FirstDifference(a[1..], b[1..], i) {
        assert a[..i + 1] == [a[0]] + a[1..][..i] && b[..i + 1] == [b[0]] + b[1..][..i];
        assert FirstDifference(a, b, i + 1);
      }
      if i: nat :| FirstDifference(a, b, i) {
        assert a[1..][..i - 1] == a[..i][1..] && b[1..][..i - 1] == b[..i][1..];
        assert FirstDifference(a[1..], b[1..], i - 1);
      }
    } else if a != [] && b != [] {
      StartAlike(a, b);
      if a[0] < b[0] {
        assert FirstDifference(a, b, 0);
      }
    }
  }

  lemma {:induction false} AtMostTotal(a: Bytes, b: Bytes)
    ensures AtMost(a, b) || AtMost(b, a)
  {
    if a != [] && b != [] {
      AtMostTotal(a[1..], b[1..]);
    }
  }

  lemma {:induction false} AtMostAntisymmetric(a: Bytes, b: Bytes)
    requires AtMost(a, b) && AtMost(b, a)
    ensures a == b
  {
    if a != [] && b != [] {
      AtMostAntisymmetric(a[1..], b[1..]);
      assert a == [a[0]] + a[1..] && b == [b[0]] + b[1..];
    }
  }

  lemma {:induction false} AtMostTransitive(a: Bytes, b: Bytes, c: Bytes)
    requires AtMost(a, b) && AtMost(b, c)
    ensures AtMost(a, c)
  {
    if a != [] && a[0] == b[0] == c[0] {
      AtMostTransitive(a[1..], b[1..], c[1..]);
    }
  }

  /** Whether `s` sorts no later than `t`. */
  predicate Before(s: string, t: string) {
    AtMost(Utf8(s), Utf8(t))
  }

  function Insert<T>(x: T, s: seq<T>, key: T -> string): (r: seq<T>)
    ensures |r| == |s| + 1
  {
    if s == [] then [x]
    else if Before(key(x), key(s[0])) then [x] + s
    else [s[0]] + Insert(x, s[1..], key)
  }

  function SortBy<T>(s: seq<T>, key: T -> string): (r: seq<T>)
    ensures |r| == |s|
  {
    if s == [] then [] else Insert(s[0], SortBy(s[1..], key), key)
  }

  predicate Sorted<T>(s: seq<T>, key: T -> string) {
    forall i, j :: 0 <= i < j < |s| ==> Before(key(s[i]), key(s[j]))
  }

  lemma JoinedAdds<T>(a: seq<T>, b: seq<T>)
    requires |a| == 1
    ensures multiset(a + b) == multiset{a[0]} + multiset(b)
    ensures a + b != [] && (a + b)[0] == a[0] && (a + b)[1..] == b
  {
    assert multiset(a + b) == multiset(a) + multiset(b);
    assert a == [a[0]];
  }

  lemma {:induction false} InsertAdds<T>(x: T, s: seq<T>, key: T -> string)
    ensures multiset(Insert(x, s, key)) == multiset(s) + multiset{x}
  {
    if s != [] && Before(key(x), key(s[0])) {
      JoinedAdds([x], s);
    } else if s != [] {
      InsertAdds(x, s[1..], key);
      JoinedAdds([s[0]], s[1..]);
      assert s == [s[0]] + s[1..];
      JoinedAdds([s[0]], Insert(x, s[1..], key));
    }
  }

  lemma {:induction false} InsertStaysAbove<T>(x: T, s: seq<T>, key: T -> string, low: string)
    requires Before(low, key(x)) && forall j :: 0 <= j < |s| ==> Before(low, key(s[j]))
    ensures forall j :: 0 <= j <= |s| ==> Before(low, key(Insert(x, s, key)[j]))
  {
    if s != [] && !Before(key(x), key(s[0])) {
      InsertStaysAbove(x, s[1..], key, low);
    }
  }

  lemma SortedCons<T>(x: T, s: seq<T>, key: T -> string)
    requires Sorted(s, key) && forall j :: 0 <= j < |s| ==> Before(key(x), key(s[j]))
    ensures Sorted([x] + s, key)
  {
  }

  lemma BeforeAll<T>(x: T, s: seq<T>, key: T -> string)
    requires Sorted(s, key) && s != [] && Before(key(x), key(s[0]))
    ensures forall j :: 0 <= j < |s| ==> Before(key(x), key(s[j]))
  {
    forall j | 0 < j < |s| ensures Before(key(x), key(s[j])) {
      AtMostTransitive(Utf8(key(x)), Utf8(key(s[0])), Utf8(key(s[j])));
    }
  }

  lemma {:induction false} InsertKeeps<T>(x: T, s: seq<T>, key: T -> string)
    requires Sorted(s, key)
    ensures Sorted(Insert(x, s, key), key)
  {
    if s == [] {
    } else if Before(key(x), key(s[0])) {
      BeforeAll(x, s, key);
      SortedCons(x, s, key);
    } else {
      InsertKeeps(x, s[1..], key);
      AtMostTotal(Utf8(key(x)), Utf8(key(s[0])));
      InsertStaysAbove(x, s[1..], key, key(s[0]));
      SortedCons(s[0], Insert(x, s[1..], key), key);
    }
  }

  lemma {:induction false} SortByIsSorted<T>(s: seq<T>, key: T -> string)
    ensures Sorted(SortBy(s, key), key)
    ensures multiset(SortBy(s, key)) == multiset(s)
  {
    if s != [] {
      SortByIsSorted(s[1..], key);
      InsertKeeps(s[0], SortBy(s[1..], key), key);
      InsertAdds(s[0], SortBy(s[1..], key), key);
      assert s == [s[0]] + s[1..];
    }
  }

  // ----- sorting text -----

  function Itself(s: string): string {
    s
  }

  function Sort(s: seq<string>): (r: seq<string>)
    ensures |r| == |s|
  {
    SortBy(s, Itself)
  }

  predicate EqualNeighbours(s: seq<string>) {
    exists i :: 0 <= i < |s| - 1 && s[i] == s[i + 1]
  }

  predicate Repeats(s: seq<string>) {
    exists i, j :: 0 <= i < j < |s| && s[i] == s[j]
  }

  lemma FirstIsLeast(s: seq<string>, t: string)
    requires Sorted(s, Itself) && s != [] && t in multiset(s)
    ensures Before(s[0], t)
  {
    var i :| 0 <= i < |s| && s[i] == t;
    if i == 0 {
      AtMostTotal(Utf8(t), Utf8(t));
    } else {
      assert Before(Itself(s[0]), Itself(s[i]));
    }
  }

  lemma SameMany<T>(s: seq<T>, t: seq<T>)
    requires multiset(s) == multiset(t)
    ensures |s| == |t|
  {
    assert |multiset(s)| == |s| && |multiset(t)| == |t|;
  }

  lemma SameFirst(s: seq<string>, t: seq<string>)
    requires s != [] && t != [] && Sorted(s, Itself) && Sorted(t, Itself) && multiset(s) == multiset(t)
    ensures s[0] == t[0]
  {
    assert s[0] in multiset(s) && t[0] in multiset(t);
    FirstIsLeast(s, t[0]);
    FirstIsLeast(t, s[0]);
    AtMostAntisymmetric(Utf8(s[0]), Utf8(t[0]));
    Utf8Injective(s[0], t[0]);
  }

  lemma FirstOff(s: seq<string>)
    requires s != [] && Sorted(s, Itself)
    ensures multiset(s[1..]) == multiset(s) - multiset{s[0]} && Sorted(s[1..], Itself)
  {
    JoinedAdds([s[0]], s[1..]);
    assert s == [s[0]] + s[1..];
    forall i, j | 0 <= i < j < |s| - 1 ensures Before(Itself(s[1..][i]), Itself(s[1..][j])) {
      assert Before(Itself(s[i + 1]), Itself(s[j + 1]));
    }
  }

  /** A list has one sorted arrangement. */
  lemma {:induction false} SortedOnce(s: seq<string>, t: seq<string>)
    requires Sorted(s, Itself) && Sorted(t, Itself) && multiset(s) == multiset(t)
    ensures s == t
  {
    SameMany(s, t);
    if s != [] {
      SameFirst(s, t);
      FirstOff(s);
      FirstOff(t);
      SortedOnce(s[1..], t[1..]);
      assert s == [s[0]] + s[1..] && t == [t[0]] + t[1..];
    }
  }

  /** Sorting forgets the order and nothing else. */
  lemma SortForgetsOrder(s: seq<string>, t: seq<string>)
    ensures Sort(s) == Sort(t) <==> multiset(s) == multiset(t)
  {
    SortByIsSorted(s, Itself);
    SortByIsSorted(t, Itself);
    if multiset(s) == multiset(t) {
      SortedOnce(Sort(s), Sort(t));
    }
  }

  lemma NeighboursRepeat(s: seq<string>)
    requires EqualNeighbours(Sort(s))
    ensures Repeats(s)
  {
    var sorted := Sort(s);
    var i :| 0 <= i < |sorted| - 1 && sorted[i] == sorted[i + 1];
    SortByIsSorted(s, Itself);
    TwiceIsTwo(sorted, i, i + 1);
    var k, m := TwoIsTwice(s, sorted[i]);
  }

  /** Nothing but the same text stands between two equal ones. */
  lemma BetweenEquals(s: seq<string>, k: nat, m: nat)
    requires Sorted(s, Itself) && k < m < |s| && s[k] == s[m]
    ensures s[k] == s[k + 1]
  {
    if k + 1 < m {
      assert Before(Itself(s[k]), Itself(s[k + 1])) && Before(Itself(s[k + 1]), Itself(s[m]));
      AtMostAntisymmetric(Utf8(s[k]), Utf8(s[k + 1]));
      Utf8Injective(s[k], s[k + 1]);
    }
  }

  lemma RepeatsAreNeighbours(s: seq<string>)
    requires Repeats(s)
    ensures EqualNeighbours(Sort(s))
  {
    var sorted := Sort(s);
    var i, j :| 0 <= i < j < |s| && s[i] == s[j];
    SortByIsSorted(s, Itself);
    TwiceIsTwo(s, i, j);
    var k, m := TwoIsTwice(sorted, s[i]);
    BetweenEquals(sorted, k, m);
    assert sorted[k] == sorted[k + 1];
  }

  /** In a sorted list, equal neighbours are found exactly when some text stands twice. */
  lemma NeighboursTell(s: seq<string>)
    ensures EqualNeighbours(Sort(s)) <==> Repeats(s)
  {
    if EqualNeighbours(Sort(s)) {
      NeighboursRepeat(s);
    }
    if Repeats(s) {
      RepeatsAreNeighbours(s);
    }
  }

  lemma TwiceIsTwo<T>(s: seq<T>, i: nat, j: nat)
    requires i < j < |s| && s[i] == s[j]
    ensures multiset(s)[s[i]] >= 2
  {
    assert s == s[..j] + [s[j]] + s[j + 1..];
    assert s[i] in s[..j];
  }

  lemma {:induction false} TwoIsTwice(s: seq<string>, x: string) returns (i: nat, j: nat)
    requires multiset(s)[x] >= 2
    ensures i < j < |s| && s[i] == x && s[j] == x
  {
    assert s == [s[0]] + s[1..];
    if s[0] == x {
      i := 0;
      assert x in multiset(s[1..]);
      var k :| 0 <= k < |s[1..]| && s[1..][k] == x;
      j := k + 1;
    } else {
      var k, m := TwoIsTwice(s[1..], x);
      i, j := k + 1, m + 1;
    }
  }

  // ----- rendering a list -----

  function Map<T, U>(s: seq<T>, f: T -> U): (r: seq<U>)
    ensures |r| == |s|
  {
    if s == [] then [] else Map(s[..|s| - 1], f) + [f(s[|s| - 1])]
  }

  lemma {:induction false} MapAt<T, U>(s: seq<T>, f: T -> U, i: nat)
    requires i < |s|
    ensures Map(s, f)[i] == f(s[i])
  {
    if i < |s| - 1 {
      MapAt(s[..|s| - 1], f, i);
    }
  }

  ghost predicate Injective<T(!new), U>(f: T -> U) {
    forall x, y :: f(x) == f(y) ==> x == y
  }

  lemma CountLast<T>(s: seq<T>, last: T, x: T)
    ensures multiset(s + [last])[x] == multiset(s)[x] + if last == x then 1 else 0
  {
  }

  /** An injective rendering keeps how often each element stands. */
  lemma {:induction false} MapKeepsCount<T(!new), U>(s: seq<T>, f: T -> U, x: T)
    requires Injective(f)
    ensures multiset(Map(s, f))[f(x)] == multiset(s)[x]
  {
    if s != [] {
      var before, last := s[..|s| - 1], s[|s| - 1];
      MapKeepsCount(before, f, x);
      assert s == before + [last];
      CountLast(before, last, x);
      CountLast(Map(before, f), f(last), f(x));
    }
  }

  lemma {:induction false} MapJoined<T, U>(s: seq<T>, t: seq<T>, f: T -> U)
    ensures Map(s + t, f) == Map(s, f) + Map(t, f)
    decreases |t|
  {
    if t == [] {
      assert s + t == s;
    } else {
      MapJoined(s, t[..|t| - 1], f);
      assert (s + t)[..|s + t| - 1] == s + t[..|t| - 1];
    }
  }

  lemma TakenOut<T>(x: multiset<T>, y: multiset<T>, z: multiset<T>)
    requires x + z == y + z
    ensures x == y
  {
    assert x == x + z - z;
    assert y == y + z - z;
  }

  lemma {:induction false} SameElementsSameMap<T, U>(a: seq<T>, b: seq<T>, f: T -> U)
    requires multiset(a) == multiset(b)
    ensures multiset(Map(a, f)) == multiset(Map(b, f))
    decreases |a|
  {
    assert |multiset(a)| == |multiset(b)|;
    if a != [] {
      var before, last := a[..|a| - 1], a[|a| - 1];
      assert a == before + [last];
      assert last in multiset(b);
      var i :| 0 <= i < |b| && b[i] == last;
      var left, right := b[..i], b[i + 1..];
      assert b == left + [last] + right;
      assert multiset(a) == multiset(before) + multiset{last};
      assert multiset(b) == multiset(left) + multiset{last} + multiset(right);
      TakenOut(multiset(before), multiset(left + right), multiset{last});
      SameElementsSameMap(before, left + right, f);
      MapJoined(left, right, f);
      MapJoined(left + [last], right, f);
      MapJoined(left, [last], f);
      assert Map([last], f) == [f(last)];
    }
  }

  lemma SameMapSameElements<T(!new), U>(a: seq<T>, b: seq<T>, f: T -> U)
    requires Injective(f) && multiset(Map(a, f)) == multiset(Map(b, f))
    ensures multiset(a) == multiset(b)
  {
    forall x ensures multiset(a)[x] == multiset(b)[x] {
      MapKeepsCount(a, f, x);
      MapKeepsCount(b, f, x);
    }
  }

  /** So it forgets nothing about the elements but, where the list does, their order. */
  lemma MapKeepsElements<T(!new), U>(a: seq<T>, b: seq<T>, f: T -> U)
    requires Injective(f)
    ensures multiset(Map(a, f)) == multiset(Map(b, f)) <==> multiset(a) == multiset(b)
  {
    if multiset(a) == multiset(b) {
      SameElementsSameMap(a, b, f);
    } else if multiset(Map(a, f)) == multiset(Map(b, f)) {
      SameMapSameElements(a, b, f);
    }
  }
}
