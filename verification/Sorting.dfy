/** Go's string order and the contract of its library sorts. */
module Sorting {

  /** A sort key. Plain strings use an empty second part. */
  type Key = (string, string)

  predicate Less(a: string, b: string) {
    |b| > 0 && (|a| == 0 || a[0] < b[0] || (a[0] == b[0] && Less(a[1..], b[1..])))
  }

  predicate Below(x: Key, y: Key) {
    Less(x.0, y.0) || (x.0 == y.0 && Less(x.1, y.1))
  }

  function StringKey(s: string): Key {
    (s, "")
  }

  lemma {:induction false} LessTotal(a: string, b: string)
    ensures Less(a, b) || a == b || Less(b, a)
    ensures !(Less(a, b) && Less(b, a))
    ensures !Less(a, a)
  {
    if |a| > 0 {
      LessTotal(a[1..], a[1..]);
    }
    if |a| > 0 && |b| > 0 && a[0] == b[0] {
      LessTotal(a[1..], b[1..]);
      if a[1..] == b[1..] {
        assert a == [a[0]] + a[1..] == b;
      }
    }
  }

  lemma {:induction false} LessTransitive(a: string, b: string, c: string)
    requires Less(a, b) && Less(b, c)
    ensures Less(a, c)
  {
    if |a| > 0 && a[0] == b[0] == c[0] {
      LessTransitive(a[1..], b[1..], c[1..]);
    }
  }

  /** The strings agree before `k`, where `a` ends or is smaller. */
  predicate SmallerAt(a: string, b: string, k: int) {
    0 <= k <= |a| && k < |b| && a[..k] == b[..k] && (k == |a| || a[k] < b[k])
  }

  lemma SmallerAtTail(a: string, b: string, k: nat)
    requires a != [] && b != [] && a[0] == b[0]
    ensures SmallerAt(a, b, k + 1) <==> SmallerAt(a[1..], b[1..], k)
  {
    if k < |a| && k < |b| {
      assert a[..k + 1] == [a[0]] + a[1..][..k] && b[..k + 1] == [b[0]] + b[1..][..k];
      assert a[1..][..k] == a[..k + 1][1..] && b[1..][..k] == b[..k + 1][1..];
    }
  }

  lemma SmallerAtHead(a: string, b: string, k: int)
    requires SmallerAt(a, b, k) && k > 0
    ensures a[0] == b[0]
  {
    assert a[0] == a[..k][0] && b[0] == b[..k][0];
  }

  /** One string is less than another exactly if it ends or is smaller where they first differ. */
  lemma {:induction false} LessAtFirstDifference(a: string, b: string)
    ensures Less(a, b) <==> exists k :: SmallerAt(a, b, k)
  {
    if a != [] && b != [] && a[0] == b[0] {
      LessAtFirstDifference(a[1..], b[1..]);
      if k :| SmallerAt(a[1..], b[1..], k) {
        SmallerAtTail(a, b, k);
      }
      if k :| SmallerAt(a, b, k) {
        assert k > 0;
        SmallerAtTail(a, b, k - 1);
      }
    } else {
      assert Less(a, b) ==> SmallerAt(a, b, 0);
      if k :| SmallerAt(a, b, k) {
        if k > 0 {
          SmallerAtHead(a, b, k);
        }
      }
    }
  }

  lemma BelowTotal(x: Key, y: Key)
    ensures Below(x, y) || x == y || Below(y, x)
    ensures !(Below(x, y) && Below(y, x))
    ensures !Below(x, x)
  {
    LessTotal(x.0, y.0);
    LessTotal(x.1, y.1);
    LessTotal(x.0, x.0);
    LessTotal(x.1, x.1);
  }

  lemma BelowTransitive(x: Key, y: Key, z: Key)
    requires Below(x, y) && Below(y, z)
    ensures Below(x, z)
  {
    if Less(x.0, y.0) && Less(y.0, z.0) {
      LessTransitive(x.0, y.0, z.0);
    } else if x.0 == y.0 == z.0 {
      LessTransitive(x.1, y.1, z.1);
    }
  }

  /** The weak order "not above" is transitive. */
  lemma NotAboveTransitive(x: Key, y: Key, z: Key)
    requires !Below(y, x) && !Below(z, y)
    ensures !Below(z, x)
  {
    BelowTotal(x, y);
    BelowTotal(y, z);
    BelowTotal(x, z);
    if x != y && y != z {
      BelowTransitive(x, y, z);
    }
  }

  predicate Sorted<T(!new)>(s: seq<T>, key: T -> Key) {
    forall i, j :: 0 <= i < j < |s| ==> !Below(key(s[j]), key(s[i]))
  }

  predicate StrictlySorted<T(!new)>(s: seq<T>, key: T -> Key) {
    forall i, j :: 0 <= i < j < |s| ==> Below(key(s[i]), key(s[j]))
  }

  /** No two different elements share a key. */
  ghost predicate Faithful<T(!new)>(s: seq<T>, key: T -> Key) {
    forall i, j :: 0 <= i < j < |s| && key(s[i]) == key(s[j]) ==> s[i] == s[j]
  }

  /** An admissible result of sorting `s`: the library sort is not stable. */
  ghost predicate SortOf<T(!new)>(s: seq<T>, out: seq<T>, key: T -> Key) {
    Sorted(out, key) && multiset(out) == multiset(s)
  }

  function Insert<T(!new)>(x: T, s: seq<T>, key: T -> Key): seq<T> {
    if s == [] || !Below(key(s[0]), key(x)) then [x] + s else [s[0]] + Insert(x, s[1..], key)
  }

  function SortBy<T(!new)>(s: seq<T>, key: T -> Key): seq<T> {
    if s == [] then [] else Insert(s[0], SortBy(s[1..], key), key)
  }

  lemma {:induction false} InsertSorts<T(!new)>(x: T, s: seq<T>, key: T -> Key)
    requires Sorted(s, key)
    ensures Sorted(Insert(x, s, key), key)
    ensures multiset(Insert(x, s, key)) == multiset(s) + multiset{x}
  {
    if s == [] {
    } else if !Below(key(s[0]), key(x)) {
      var out := [x] + s;
      forall j | 0 < j < |out|
        ensures !Below(key(out[j]), key(x))
      {
        if j > 1 {
          assert !Below(key(s[j - 1]), key(s[0]));
          NotAboveTransitive(key(x), key(s[0]), key(out[j]));
        }
      }
    } else {
      InsertSorts(x, s[1..], key);
      var rest := Insert(x, s[1..], key);
      assert s == [s[0]] + s[1..];
      forall j | 0 <= j < |rest|
        ensures !Below(key(rest[j]), key(s[0]))
      {
        assert rest[j] in multiset(rest);
        if rest[j] == x {
          BelowTotal(key(x), key(s[0]));
        } else {
          assert rest[j] in s[1..];
        }
      }
    }
  }

  lemma {:induction false} SortBySorts<T(!new)>(s: seq<T>, key: T -> Key)
    ensures SortOf(s, SortBy(s, key), key)
  {
    if s != [] {
      SortBySorts(s[1..], key);
      InsertSorts(s[0], SortBy(s[1..], key), key);
      assert s == [s[0]] + s[1..];
    }
  }

  /** A library sort as callers may use it: equal keys end up in an unspecified order. */
  method LibrarySort<T(!new)>(s: seq<T>, key: T -> Key) returns (out: seq<T>)
    ensures SortOf(s, out, key)
  {
    out := SortBy(s, key);
    SortBySorts(s, key);
  }

  lemma SameHead<T(!new)>(s: seq<T>, t: seq<T>, key: T -> Key)
    requires Sorted(s, key) && Sorted(t, key) && multiset(s) == multiset(t)
    requires Faithful(s, key) && s != [] && t != []
    ensures s[0] == t[0]
  {
    assert s[0] in multiset(t) && t[0] in multiset(s);
    var i :| 0 <= i < |t| && t[i] == s[0];
    var j :| 0 <= j < |s| && s[j] == t[0];
    BelowTotal(key(s[0]), key(t[0]));
    assert key(s[0]) == key(s[j]);
  }

  lemma TailMultiset<T(!new)>(s: seq<T>)
    requires s != []
    ensures multiset(s[1..]) == multiset(s) - multiset{s[0]}
  {
    assert s == [s[0]] + s[1..];
  }

  lemma TailArranged<T(!new)>(s: seq<T>, key: T -> Key)
    requires s != [] && Sorted(s, key)
    ensures Sorted(s[1..], key) && (Faithful(s, key) ==> Faithful(s[1..], key))
  {
  }

  /** Two arrangements of the same elements start alike and leave two such arrangements. */
  lemma TailsMatch<T(!new)>(s: seq<T>, t: seq<T>, key: T -> Key)
    requires Sorted(s, key) && Sorted(t, key) && multiset(s) == multiset(t)
    requires Faithful(s, key) && s != [] && t != []
    ensures s[0] == t[0] && multiset(s[1..]) == multiset(t[1..])
    ensures Sorted(s[1..], key) && Sorted(t[1..], key) && Faithful(s[1..], key)
  {
    SameHead(s, t, key);
    TailMultiset(s);
    TailMultiset(t);
    TailArranged(s, key);
    TailArranged(t, key);
  }

  /** Keys that identify elements leave only one sorted arrangement. */
  lemma {:induction false} ArrangementUnique<T(!new)>(s: seq<T>, t: seq<T>, key: T -> Key)
    requires Sorted(s, key) && Sorted(t, key) && multiset(s) == multiset(t)
    requires Faithful(s, key)
    ensures s == t
  {
    assert |s| == |multiset(s)| == |t|;
    if s != [] {
      TailsMatch(s, t, key);
      ArrangementUnique(s[1..], t[1..], key);
      assert s == [s[0]] + s[1..] && t == [t[0]] + t[1..];
    }
  }

  lemma SwapPermutes<T>(s: seq<T>, i: nat, j: nat)
    requires i < j < |s|
    ensures multiset(s[i := s[j]][j := s[i]]) == multiset(s)
  {
    var u := s[i := s[j]];
    assert multiset(u) == multiset(s) - multiset{s[i]} + multiset{s[j]};
    assert multiset(u[j := s[i]]) == multiset(u) - multiset{u[j]} + multiset{s[i]};
  }

  lemma SameKeysSorted<T(!new)>(s: seq<T>, t: seq<T>, key: T -> Key)
    requires Sorted(s, key) && |t| == |s| && forall k :: 0 <= k < |s| ==> key(t[k]) == key(s[k])
    ensures Sorted(t, key)
  {
  }

  lemma SwapKeepsSorted<T(!new)>(s: seq<T>, i: nat, j: nat, key: T -> Key) returns (t: seq<T>)
    requires Sorted(s, key) && i < j < |s| && key(s[i]) == key(s[j])
    ensures SortOf(s, t, key) && t == s[i := s[j]][j := s[i]]
  {
    t := s[i := s[j]][j := s[i]];
    SameKeysSorted(s, t, key);
    SwapPermutes(s, i, j);
  }

  /** The sort has one possible result exactly when keys identify elements. */
  lemma SortDeterminedIff<T(!new)>(s: seq<T>, key: T -> Key)
    ensures Faithful(s, key) <==> forall t, u :: SortOf(s, t, key) && SortOf(s, u, key) ==> t == u
  {
    if Faithful(s, key) {
      forall t, u | SortOf(s, t, key) && SortOf(s, u, key)
        ensures t == u
      {
        FaithfulPermutes(s, t, key);
        ArrangementUnique(t, u, key);
      }
    } else {
      SortBySorts(s, key);
      var t := SortBy(s, key);
      assert !Faithful(t, key) by {
        if Faithful(t, key) {
          FaithfulPermutes(t, s, key);
        }
      }
      var i, j :| 0 <= i < j < |t| && key(t[i]) == key(t[j]) && t[i] != t[j];
      var u := SwapKeepsSorted(t, i, j, key);
      assert u[i] != t[i];
      assert SortOf(s, u, key) && SortOf(s, t, key) && t != u;
    }
  }

  lemma FaithfulPermutes<T(!new)>(s: seq<T>, t: seq<T>, key: T -> Key)
    requires Faithful(s, key) && multiset(s) == multiset(t)
    ensures Faithful(t, key)
  {
    forall i, j | 0 <= i < j < |t| && key(t[i]) == key(t[j])
      ensures t[i] == t[j]
    {
      assert t[i] in multiset(s) && t[j] in multiset(s);
      var a :| 0 <= a < |s| && s[a] == t[i];
      var b :| 0 <= b < |s| && s[b] == t[j];
      assert a < b || b < a || a == b;
    }
  }

  /** Strictly sorted sequences are determined by their elements. */
  lemma {:induction false} SameElements<T(!new)>(s: seq<T>, t: seq<T>, key: T -> Key)
    requires StrictlySorted(s, key) && StrictlySorted(t, key)
    requires forall x :: x in s <==> x in t
    ensures s == t
  {
    assert s != [] ==> s[0] in t;
    assert t != [] ==> t[0] in s;
    if s != [] {
      assert s[0] in t && t[0] in s;
      BelowTotal(key(s[0]), key(t[0]));
      assert s[0] == t[0];
      forall x
        ensures x in s[1..] <==> x in t[1..]
      {
        BelowTotal(key(s[0]), key(s[0]));
        assert x in s[1..] ==> x in s && x != s[0];
        assert x in t[1..] ==> x in t && x != t[0];
        assert x in s && x != s[0] ==> x in s[1..];
        assert x in t && x != t[0] ==> x in t[1..];
      }
      SameElements(s[1..], t[1..], key);
      assert s == [s[0]] + s[1..] && t == [t[0]] + t[1..];
    }
  }

  /** Distinct keys make a sorted sequence strictly sorted. */
  lemma SortedDistinct<T(!new)>(s: seq<T>, key: T -> Key)
    requires Sorted(s, key)
    requires forall i, j :: 0 <= i < j < |s| ==> key(s[i]) != key(s[j])
    ensures StrictlySorted(s, key)
  {
    forall i, j | 0 <= i < j < |s|
      ensures Below(key(s[i]), key(s[j]))
    {
      BelowTotal(key(s[i]), key(s[j]));
    }
  }

  lemma TwiceInMultiset<T>(s: seq<T>, i: nat, j: nat)
    requires i < j < |s| && s[i] == s[j]
    ensures multiset(s)[s[i]] >= 2
  {
    assert s == s[..i] + [s[i]] + s[i + 1..j] + [s[j]] + s[j + 1..];
  }

  lemma OnceInMultiset<T>(s: seq<T>, x: nat)
    requires x < |s| && forall y :: 0 <= y < |s| && y != x ==> s[y] != s[x]
    ensures multiset(s)[s[x]] == 1
  {
    assert s == s[..x] + [s[x]] + s[x + 1..];
    assert s[x] !in s[..x] && s[x] !in s[x + 1..];
  }
}
