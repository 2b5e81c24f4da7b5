/** The sorting that the packer asks of the library: some permutation, descending in a key. */
module Sorting {

  ghost predicate Descends<T(!new)>(s: seq<T>, key: T -> real) {
    forall i, j | 0 <= i < j < |s| :: key(s[i]) >= key(s[j])
  }

  ghost predicate NoRepeats<T(!new)>(s: seq<T>) {
    forall i, j | 0 <= i < j < |s| :: s[i] != s[j]
  }

  method Insert<T(!new)>(s: seq<T>, x: T, key: T -> real) returns (r: seq<T>)
    requires Descends(s, key)
    ensures multiset(r) == multiset(s) + multiset{x} && Descends(r, key)
  {
    var k := 0;
    while k < |s| && key(s[k]) >= key(x)
      invariant k <= |s| && forall i | 0 <= i < k :: key(s[i]) >= key(x)
    {
      k := k + 1;
    }
    r := s[..k] + [x] + s[k..];
    assert s == s[..k] + s[k..];
    Inserted(s, x, k, key);
  }

  lemma Inserted<T(!new)>(s: seq<T>, x: T, k: nat, key: T -> real)
    requires k <= |s| && Descends(s, key)
    requires forall i | 0 <= i < k :: key(s[i]) >= key(x)
    requires k < |s| ==> key(x) >= key(s[k])
    ensures Descends(s[..k] + [x] + s[k..], key)
  {
    var r := s[..k] + [x] + s[k..];
    assert forall i | 0 <= i < |r| :: r[i] == if i < k then s[i] else if i == k then x else s[i - 1];
    forall i | k <= i < |s|
      ensures key(x) >= key(s[i])
    {
      assert i > k ==> key(s[k]) >= key(s[i]);
    }
  }

  method SortDescending<T(!new)>(xs: seq<T>, key: T -> real) returns (r: seq<T>)
    ensures multiset(r) == multiset(xs) && Descends(r, key)
  {
    r := [];
    for i := 0 to |xs|
      invariant multiset(r) == multiset(xs[..i]) && Descends(r, key)
    {
      assert xs[..i + 1] == xs[..i] + [xs[i]];
      r := Insert(r, xs[i], key);
    }
    assert xs[..|xs|] == xs;
  }

  lemma {:induction false} CountAtMostOne<T(!new)>(s: seq<T>, x: T)
    requires NoRepeats(s)
    ensures multiset(s)[x] <= 1
  {
    if s != [] {
      assert s == [s[0]] + s[1..];
      CountAtMostOne(s[1..], x);
      if x == s[0] {
        assert x !in s[1..];
      }
    }
  }

  lemma {:induction false} CountOnce<T(!new)>(s: seq<T>, x: T)
    requires NoRepeats(s)
    ensures multiset(s)[x] == if x in s then 1 else 0
  {
    CountAtMostOne(s, x);
    assert x in s <==> multiset(s)[x] > 0;
  }

  /** Lists without repeats that have the same members are permutations of each other. */
  lemma SameMembers<T(!new)>(s: seq<T>, t: seq<T>)
    requires NoRepeats(s) && NoRepeats(t) && forall x :: x in s <==> x in t
    ensures multiset(s) == multiset(t)
  {
    forall x
      ensures multiset(s)[x] == multiset(t)[x]
    {
      CountOnce(s, x);
      CountOnce(t, x);
    }
  }

  lemma CountTwice<T(!new)>(s: seq<T>, i: nat, j: nat)
    requires i < j < |s| && s[i] == s[j]
    ensures multiset(s)[s[i]] >= 2
  {
    assert s == s[..j] + s[j..];
    assert s[i] in s[..j] && s[i] in s[j..];
  }

  /** A permutation of a list without repeats has none either. */
  lemma PermutedNoRepeats<T(!new)>(s: seq<T>, t: seq<T>)
    requires NoRepeats(s) && multiset(s) == multiset(t)
    ensures NoRepeats(t) && forall x :: x in s <==> x in t
  {
    forall i, j | 0 <= i < j < |t|
      ensures t[i] != t[j]
    {
      CountAtMostOne(s, t[i]);
      if t[i] == t[j] {
        CountTwice(t, i, j);
      }
    }
    forall x
      ensures x in s <==> x in t
    {
      assert x in multiset(s) <==> x in multiset(t);
    }
  }
}
