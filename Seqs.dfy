/** Sequence helpers: duplicate removal in first-occurrence order, which is what
    `Array.from(new Set(values))` yields in JavaScript. */
module Seqs {

  predicate NoDuplicates<T(==)>(s: seq<T>) {
    forall i, j :: 0 <= i < j < |s| ==> s[i] != s[j]
  }

  /** The index of the first occurrence of `x` in `s`. */
  function FirstIndex<T(==)>(s: seq<T>, x: T): (i: nat)
    requires x in s
    ensures i < |s| && s[i] == x
    ensures forall j :: 0 <= j < i ==> s[j] != x
  {
    if s[0] == x then 0 else 1 + FirstIndex(s[1..], x)
  }

  /** `Array.from(new Set(s))`: each element once, at the place it first occurs. */
  function Unique<T(==)>(s: seq<T>): (r: seq<T>)
    ensures NoDuplicates(r)
    ensures forall i :: 0 <= i < |r| ==> r[i] in s
    ensures forall i :: 0 <= i < |s| ==> s[i] in r
    decreases |s|
  {
    if s == [] then []
    else
      var prefix := Unique(s[..|s| - 1]);
      assert forall i :: 0 <= i < |s| - 1 ==> s[i] == s[..|s| - 1][i];
      if s[|s| - 1] in prefix then prefix else prefix + [s[|s| - 1]]
  }

  /** Taking one more element of `e` after `a` appends that element. */
  lemma ConcatTakeStep<T>(a: seq<T>, e: seq<T>, i: nat)
    requires i < |e|
    ensures a + e[..i + 1] == (a + e[..i]) + [e[i]]
  {
    assert e[..i + 1] == e[..i] + [e[i]];
  }

  lemma FirstIndexOfPrefix<T>(s: seq<T>, n: nat, x: T)
    requires n <= |s| && x in s[..n]
    ensures x in s && FirstIndex(s, x) == FirstIndex(s[..n], x)
  {
    var k := FirstIndex(s[..n], x);
    assert s[k] == x;
    forall j | 0 <= j < k ensures s[j] != x {
      assert s[..n][j] == s[j];
    }
  }

  /** Each element of `r` occurs in `s`, and `r` lists them in the order they first occur there. */
  predicate InFirstOccurrenceOrder<T(==)>(r: seq<T>, s: seq<T>) {
    forall i, j :: 0 <= i < j < |r| ==> r[i] in s && r[j] in s && FirstIndex(s, r[i]) < FirstIndex(s, r[j])
  }

  /** Unique keeps the elements in the order of their first occurrence in the input. */
  lemma {:induction false} UniqueKeepsFirstOccurrenceOrder<T>(s: seq<T>)
    ensures InFirstOccurrenceOrder(Unique(s), s)
    decreases |s|
  {
    if s != [] {
      var init := s[..|s| - 1];
      UniqueKeepsFirstOccurrenceOrder(init);
      assert s == init + [s[|s| - 1]];
      UniqueOrderStep(init, s[|s| - 1]);
    }
  }

  /** Adding one element at the end keeps the order of first occurrences. */
  lemma UniqueOrderStep<T>(init: seq<T>, last: T)
    requires InFirstOccurrenceOrder(Unique(init), init)
    ensures InFirstOccurrenceOrder(Unique(init + [last]), init + [last])
  {
    var s := init + [last];
    assert s[..|s| - 1] == init;
    var prefix := Unique(init);
    forall x | x in prefix ensures x in s && FirstIndex(s, x) == FirstIndex(init, x) {
      FirstIndexOfPrefix(s, |s| - 1, x);
    }
    var r := Unique(s);
    if last !in prefix {
      assert last !in init;
      assert FirstIndex(s, last) == |s| - 1;
      assert r == prefix + [last];
    } else {
      assert r == prefix;
    }
    forall i, j | 0 <= i < j < |r|
      ensures r[i] in s && r[j] in s && FirstIndex(s, r[i]) < FirstIndex(s, r[j])
    {
      assert r[i] == prefix[i] && prefix[i] in prefix;
      if j < |prefix| {
        assert r[j] == prefix[j] && prefix[j] in prefix;
      } else {
        assert r[j] == last;
        assert FirstIndex(init, prefix[i]) < |init|;
      }
    }
  }

  /** The first element of the input is the first element of the result. */
  lemma UniqueHead<T>(s: seq<T>)
    requires s != []
    ensures Unique(s) != [] && Unique(s)[0] == s[0]
  {
    UniqueKeepsFirstOccurrenceOrder(s);
    var r := Unique(s);
    assert s[0] in r;
    var k :| 0 <= k < |r| && r[k] == s[0];
    assert FirstIndex(s, r[k]) == 0;
  }

  /** A sequence without duplicates, extended by elements it already holds, is its own Unique. */
  lemma {:induction false} UniqueOfDistinctExtended<T>(a: seq<T>, b: seq<T>)
    requires NoDuplicates(a)
    requires forall x :: x in b ==> x in a
    ensures Unique(a + b) == a
    decreases |a| + |b|
  {
    if b == [] {
      assert a + b == a;
      if a != [] {
        UniqueOfDistinctExtended(a[..|a| - 1], []);
        assert a[..|a| - 1] + [] == a[..|a| - 1];
        assert a[|a| - 1] !in a[..|a| - 1];
        assert a[..|a| - 1] + [a[|a| - 1]] == a;
      }
    } else {
      var b' := b[..|b| - 1];
      assert (a + b)[..|a + b| - 1] == a + b';
      UniqueOfDistinctExtended(a, b');
    }
  }

  /** Without duplicates, every element occurs once. */
  lemma {:induction false} NoDuplicatesCountsOne<T>(s: seq<T>)
    requires NoDuplicates(s)
    ensures forall x :: multiset(s)[x] <= 1
    decreases |s|
  {
    if s != [] {
      var init := s[..|s| - 1];
      assert NoDuplicates(init) by {
        forall i, j | 0 <= i < j < |init| ensures init[i] != init[j] {
          assert init[i] == s[i] && init[j] == s[j];
        }
      }
      NoDuplicatesCountsOne(init);
      assert s == init + [s[|s| - 1]];
      assert s[|s| - 1] !in init;
    }
  }

  /** A rearrangement of a sequence without duplicates has none either. */
  lemma PermutationKeepsNoDuplicates<T>(s: seq<T>, t: seq<T>)
    requires NoDuplicates(s) && multiset(s) == multiset(t)
    ensures NoDuplicates(t)
  {
    NoDuplicatesCountsOne(s);
    forall i, j | 0 <= i < j < |t| ensures t[i] != t[j] {
      CountsBothPlaces(t, i, j);
    }
  }

  lemma CountsBothPlaces<T>(t: seq<T>, i: nat, j: nat)
    requires i < j < |t|
    ensures multiset(t)[t[i]] >= 1 + multiset(t[j..])[t[i]] && multiset(t[j..])[t[j]] >= 1
  {
    assert t == t[..j] + t[j..];
    assert t[i] in t[..j] && t[j] in t[j..];
  }
}
