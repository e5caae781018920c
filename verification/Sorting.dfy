/** Sorting by a total preorder, and the facts about sorted sequences that the reports rely on. */
module Sorting {
  import opened Utf8

  ghost predicate TotalPreorder<T(!new)>(leq: (T, T) -> bool) {
    && (forall x, y :: leq(x, y) || leq(y, x))
    && (forall x, y, z :: leq(x, y) && leq(y, z) ==> leq(x, z))
  }

  ghost predicate SortedBy<T>(leq: (T, T) -> bool, s: seq<T>) {
    forall i, j :: 0 <= i < j < |s| ==> leq(s[i], s[j])
  }

  function InsertBy<T>(leq: (T, T) -> bool, x: T, s: seq<T>): seq<T> {
    if s == [] || leq(x, s[0]) then [x] + s else [s[0]] + InsertBy(leq, x, s[1..])
  }

  function SortBy<T>(leq: (T, T) -> bool, s: seq<T>): seq<T> {
    if s == [] then [] else InsertBy(leq, s[0], SortBy(leq, s[1..]))
  }

  lemma {:induction false} InsertBySorts<T(!new)>(leq: (T, T) -> bool, x: T, s: seq<T>)
    requires TotalPreorder(leq) && SortedBy(leq, s)
    ensures |InsertBy(leq, x, s)| == |s| + 1
    ensures InsertBy(leq, x, s)[0] == if s == [] || leq(x, s[0]) then x else s[0]
    ensures SortedBy(leq, InsertBy(leq, x, s))
    ensures multiset(InsertBy(leq, x, s)) == multiset(s) + multiset{x}
  {
    if s == [] {
    } else if leq(x, s[0]) {
      SortedCons(leq, x, s);
    } else {
      var r := InsertBy(leq, x, s[1..]);
      InsertBySorts(leq, x, s[1..]);
      assert s == [s[0]] + s[1..];
      assert leq(s[0], r[0]);
      SortedCons(leq, s[0], r);
    }
  }

  lemma SortedCons<T(!new)>(leq: (T, T) -> bool, x: T, s: seq<T>)
    requires TotalPreorder(leq) && SortedBy(leq, s) && (s != [] ==> leq(x, s[0]))
    ensures SortedBy(leq, [x] + s)
  {
    forall j | 0 <= j < |s|
      ensures leq(x, s[j])
    {
      assert j > 0 ==> leq(s[0], s[j]);
    }
  }

  /** The result is an ordered rearrangement of the input. */
  lemma {:induction false} SortBySorts<T(!new)>(leq: (T, T) -> bool, s: seq<T>)
    requires TotalPreorder(leq)
    ensures SortedBy(leq, SortBy(leq, s)) && multiset(SortBy(leq, s)) == multiset(s)
    ensures |SortBy(leq, s)| == |s|
  {
    if s != [] {
      SortBySorts(leq, s[1..]);
      InsertBySorts(leq, s[0], SortBy(leq, s[1..]));
      assert s == [s[0]] + s[1..];
    }
  }

  /** Ties can only be between equal elements. */
  ghost predicate Antisymmetric<T(!new)>(leq: (T, T) -> bool, m: multiset<T>) {
    forall x, y :: x in m && y in m && leq(x, y) && leq(y, x) ==> x == y
  }

  lemma FirstIsLeast<T>(leq: (T, T) -> bool, s: seq<T>, x: T)
    requires SortedBy(leq, s) && x in s
    ensures s[0] == x || leq(s[0], x)
  {
  }

  lemma TailMultiset<T>(s: seq<T>)
    requires s != []
    ensures multiset(s[1..]) == multiset(s) - multiset{s[0]}
  {
    assert s == [s[0]] + s[1..];
  }

  /** Taking out one element takes out one occurrence. */
  lemma RemovedMultiset<T>(s: seq<T>, k: nat)
    requires k < |s|
    ensures multiset(s[..k] + s[k + 1..]) == multiset(s) - multiset{s[k]}
  {
    assert s == s[..k] + ([s[k]] + s[k + 1..]);
  }

  lemma FirstsAgree<T(!new)>(leq: (T, T) -> bool, a: seq<T>, b: seq<T>)
    requires SortedBy(leq, a) && SortedBy(leq, b) && a != [] && b != []
    requires multiset(a) == multiset(b) && Antisymmetric(leq, multiset(a))
    ensures a[0] == b[0]
  {
    assert a[0] in multiset(b) && b[0] in multiset(a);
    FirstIsLeast(leq, a, b[0]);
    FirstIsLeast(leq, b, a[0]);
  }

  lemma AntisymmetricPart<T(!new)>(leq: (T, T) -> bool, m: multiset<T>, part: multiset<T>)
    requires Antisymmetric(leq, m) && part <= m
    ensures Antisymmetric(leq, part)
  {
  }

  lemma SortedTail<T>(leq: (T, T) -> bool, s: seq<T>)
    requires SortedBy(leq, s) && s != []
    ensures SortedBy(leq, s[1..])
  {
  }

  lemma SameMultisetSameLength<T>(a: seq<T>, b: seq<T>)
    requires multiset(a) == multiset(b)
    ensures |a| == |b|
  {
    assert |multiset(a)| == |a| && |multiset(b)| == |b|;
  }

  lemma SameByParts<T>(a: seq<T>, b: seq<T>)
    requires a != [] && b != [] && a[0] == b[0] && a[1..] == b[1..]
    ensures a == b
  {
    assert a == [a[0]] + a[1..] && b == [b[0]] + b[1..];
  }

  /** A rearrangement without ties has only one sorted order. */
  lemma {:induction false} SortedIsUnique<T(!new)>(leq: (T, T) -> bool, a: seq<T>, b: seq<T>)
    requires SortedBy(leq, a) && SortedBy(leq, b)
    requires multiset(a) == multiset(b) && Antisymmetric(leq, multiset(a))
    ensures a == b
    decreases |a|
  {
    SameMultisetSameLength(a, b);
    if a != [] {
      FirstsAgree(leq, a, b);
      TailMultiset(a);
      TailMultiset(b);
      assert multiset(a[1..]) == multiset(b[1..]);
      AntisymmetricPart(leq, multiset(a), multiset(a[1..]));
      SortedTail(leq, a);
      SortedTail(leq, b);
      SortedIsUnique(leq, a[1..], b[1..]);
      SameByParts(a, b);
    }
  }

  // ----- Charss in code point order

  predicate CharsBelow(a: Chars, b: Chars) {
    b != [] && (a == [] || a[0] < b[0] || (a[0] == b[0] && CharsBelow(a[1..], b[1..])))
  }

  lemma {:induction false} CharsBelowTrichotomy(a: Chars, b: Chars)
    ensures CharsBelow(a, b) || CharsBelow(b, a) || a == b
    ensures !(CharsBelow(a, b) && CharsBelow(b, a)) && !CharsBelow(a, a)
  {
    if a != [] {
      CharsBelowTrichotomy(a[1..], if b == [] then [] else b[1..]);
    }
    if a != [] && b != [] && a[1..] == b[1..] && a[0] == b[0] {
      assert a == [a[0]] + a[1..] && b == [b[0]] + b[1..];
    }
  }

  lemma {:induction false} CharsBelowTransitive(a: Chars, b: Chars, c: Chars)
    requires CharsBelow(a, b) && CharsBelow(b, c)
    ensures CharsBelow(a, c)
  {
    if a != [] && a[0] == b[0] == c[0] {
      CharsBelowTransitive(a[1..], b[1..], c[1..]);
    }
  }

  predicate CharsLeq(a: Chars, b: Chars) {
    !CharsBelow(b, a)
  }

  lemma CharsLeqTransitive(a: Chars, b: Chars, c: Chars)
    requires CharsLeq(a, b) && CharsLeq(b, c)
    ensures CharsLeq(a, c)
  {
    CharsBelowTrichotomy(a, b);
    CharsBelowTrichotomy(b, c);
    if CharsBelow(a, b) && CharsBelow(b, c) {
      CharsBelowTransitive(a, b, c);
      CharsBelowTrichotomy(a, c);
    }
  }

  predicate IsLeast(first: Chars, keys: set<Chars>) {
    first in keys && forall k :: k in keys ==> CharsLeq(first, k)
  }

  lemma {:induction false} LeastExists(keys: set<Chars>)
    requires keys != {}
    ensures exists k :: IsLeast(k, keys)
  {
    var some :| some in keys;
    CharsBelowTrichotomy(some, some);
    if keys != {some} {
      var rest := keys - {some};
      LeastExists(rest);
      var least :| IsLeast(least, rest);
      CharsBelowTrichotomy(some, least);
      var first := if CharsLeq(some, least) then some else least;
      forall k | k in keys
        ensures CharsLeq(first, k)
      {
        if k != some && first == some {
          CharsLeqTransitive(some, least, k);
        }
      }
      assert IsLeast(first, keys);
    } else {
      assert IsLeast(some, keys);
    }
  }

  lemma LeastIsUnique(a: Chars, b: Chars, keys: set<Chars>)
    requires IsLeast(a, keys) && IsLeast(b, keys)
    ensures a == b
  {
    CharsBelowTrichotomy(a, b);
  }

  /** The keys in increasing order. */
  function SortedKeys(keys: set<Chars>): (r: seq<Chars>)
    ensures forall k :: k in r <==> k in keys
    ensures forall i, j :: 0 <= i < j < |r| ==> CharsBelow(r[i], r[j])
  {
    if keys == {} then [] else
      LeastExists(keys);
      assert forall a, b :: IsLeast(a, keys) && IsLeast(b, keys) ==> a == b by {
        forall a, b | IsLeast(a, keys) && IsLeast(b, keys) ensures a == b { LeastIsUnique(a, b, keys); }
      }
      var first :| IsLeast(first, keys);
      var rest := SortedKeys(keys - {first});
      LeastGoesFirst(first, keys, rest);
      [first] + rest
  }

  lemma LeastGoesFirst(first: Chars, keys: set<Chars>, rest: seq<Chars>)
    requires IsLeast(first, keys) && forall k :: k in rest <==> k in keys - {first}
    ensures forall j :: 0 <= j < |rest| ==> CharsBelow(first, rest[j])
  {
    forall j | 0 <= j < |rest|
      ensures CharsBelow(first, rest[j])
    {
      assert rest[j] in rest;
      CharsBelowTrichotomy(first, rest[j]);
    }
  }

  predicate StringBelow(a: string, b: string) {
    CharsBelow(CodePoints(a), CodePoints(b))
  }

  predicate StringLeq(a: string, b: string) {
    !StringBelow(b, a)
  }

  lemma StringBelowTrichotomy(a: string, b: string)
    ensures StringBelow(a, b) || StringBelow(b, a) || a == b
    ensures !(StringBelow(a, b) && StringBelow(b, a)) && !StringBelow(a, a)
  {
    CharsBelowTrichotomy(CodePoints(a), CodePoints(b));
    if CodePoints(a) == CodePoints(b) {
      forall i | 0 <= i < |a|
        ensures a[i] == b[i]
      {
        assert CodePoints(a)[i] == CodePoints(b)[i];
      }
    }
  }

  /** Two places of a sequence correspond to two places of any rearrangement. */
  lemma TwoPlaces<T>(a: seq<T>, b: seq<T>, i: nat, j: nat) returns (k: nat, l: nat)
    requires multiset(a) == multiset(b) && i < j < |a|
    ensures k < |b| && l < |b| && k != l && b[k] == a[i] && b[l] == a[j]
  {
    assert a[i] in multiset(b);
    k :| 0 <= k < |b| && b[k] == a[i];
    var a', b' := a[..i] + a[i + 1..], b[..k] + b[k + 1..];
    RemovedMultiset(a, i);
    RemovedMultiset(b, k);
    assert a'[j - 1] == a[j];
    assert a[j] in multiset(b');
    var m :| 0 <= m < |b'| && b'[m] == a[j];
    l := if m < k then m else m + 1;
  }

  // ----- sorting what a function gives

  function Map<S, T>(f: S -> T, s: seq<S>): (r: seq<T>)
    ensures |r| == |s| && forall i :: 0 <= i < |s| ==> r[i] == f(s[i])
  {
    if s == [] then [] else [f(s[0])] + Map(f, s[1..])
  }

  lemma {:induction false} InsertMap<S(!new), T>(leq: (S, S) -> bool, leq': (T, T) -> bool, f: S -> T, x: S, s: seq<S>)
    requires forall a, b :: leq(a, b) == leq'(f(a), f(b))
    ensures InsertBy(leq', f(x), Map(f, s)) == Map(f, InsertBy(leq, x, s))
  {
    if s != [] && !leq(x, s[0]) {
      InsertMap(leq, leq', f, x, s[1..]);
      assert Map(f, s)[1..] == Map(f, s[1..]);
    }
  }

  /** Sorting by what the function keeps commutes with it. */
  lemma {:induction false} SortMap<S(!new), T>(leq: (S, S) -> bool, leq': (T, T) -> bool, f: S -> T, s: seq<S>)
    requires forall a, b :: leq(a, b) == leq'(f(a), f(b))
    ensures SortBy(leq', Map(f, s)) == Map(f, SortBy(leq, s))
  {
    if s != [] {
      SortMap(leq, leq', f, s[1..]);
      assert Map(f, s)[1..] == Map(f, s[1..]);
      InsertMap(leq, leq', f, s[0], SortBy(leq, s[1..]));
    }
  }

  lemma {:induction false} MapAppend<S, T>(f: S -> T, a: seq<S>, b: seq<S>)
    ensures Map(f, a + b) == Map(f, a) + Map(f, b)
  {
    if a == [] {
      assert a + b == b;
    } else {
      assert (a + b)[1..] == a[1..] + b;
      MapAppend(f, a[1..], b);
    }
  }

  lemma MapWithout<S, T>(f: S -> T, s: seq<S>, k: nat)
    requires k < |s|
    ensures multiset(Map(f, s[..k] + s[k + 1..])) == multiset(Map(f, s)) - multiset{f(s[k])}
  {
    var front, back := s[..k], s[k + 1..];
    assert s == front + ([s[k]] + back);
    MapAppend(f, front, back);
    MapAppend(f, front, [s[k]] + back);
    MapAppend(f, [s[k]], back);
    MovedOut(Map(f, front), Map(f, back), f(s[k]));
  }

  lemma MovedOut<T>(front: seq<T>, back: seq<T>, x: T)
    ensures multiset(front + back) == multiset(front + ([x] + back)) - multiset{x}
  {
  }

  lemma RestoredMultiset<T>(a: multiset<T>, b: multiset<T>, x: T)
    requires x in a && x in b && a - multiset{x} == b - multiset{x}
    ensures a == b
  {
    assert a == a - multiset{x} + multiset{x} && b == b - multiset{x} + multiset{x};
  }

  lemma Matched<T>(a: seq<T>, b: seq<T>) returns (k: nat)
    requires a != [] && multiset(a) == multiset(b)
    ensures k < |b| && b[k] == a[0] && multiset(a[..0] + a[1..]) == multiset(b[..k] + b[k + 1..])
  {
    assert a[0] in multiset(b);
    k :| 0 <= k < |b| && b[k] == a[0];
    RemovedMultiset(a, 0);
    RemovedMultiset(b, k);
  }

  /** A rearrangement stays one under a function. */
  lemma {:induction false} MapPermuted<S, T>(f: S -> T, a: seq<S>, b: seq<S>)
    requires multiset(a) == multiset(b)
    ensures multiset(Map(f, a)) == multiset(Map(f, b))
    decreases |a|
  {
    if a == [] {
      SameMultisetSameLength(a, b);
    } else {
      var k := Matched(a, b);
      MapPermuted(f, a[..0] + a[1..], b[..k] + b[k + 1..]);
      MapWithout(f, a, 0);
      MapWithout(f, b, k);
      assert Map(f, a)[0] == f(a[0]) && Map(f, b)[k] == f(a[0]);
      RestoredMultiset(multiset(Map(f, a)), multiset(Map(f, b)), f(a[0]));
    }
  }
}
