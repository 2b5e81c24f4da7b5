/** Sums over Go maps and slices.

    The source accumulates over maps, whose iteration order is unspecified, so a sum is defined
    with an arbitrary choice of the next key and shown not to depend on it. */
module Sums {

  /** A read/write amount with a count beside it. */
  datatype Amount = Amount(rd: real, wr: real, n: int) {
    function Plus(o: Amount): Amount {
      Amount(rd + o.rd, wr + o.wr, n + o.n)
    }

    predicate NonNegative() {
      rd >= 0.0 && wr >= 0.0 && n >= 0
    }
  }

  lemma PlusSwap(a: Amount, b: Amount, c: Amount)
    ensures a.Plus(b.Plus(c)) == b.Plus(a.Plus(c))
  {
  }

  const Zero := Amount(0.0, 0.0, 0)

  ghost function Sum<K(!new), V(!new)>(m: map<K, V>, f: V -> Amount): Amount
    decreases |m|
  {
    if m == map[] then Zero
    else
      var k :| k in m;
      f(m[k]).Plus(Sum(m - {k}, f))
  }

  /** Any key may be taken out first. */
  lemma {:induction false} SumWithout<K(!new), V(!new)>(m: map<K, V>, f: V -> Amount, k: K)
    requires k in m
    ensures Sum(m, f) == f(m[k]).Plus(Sum(m - {k}, f))
    decreases |m|
  {
    var j :| j in m && Sum(m, f) == f(m[j]).Plus(Sum(m - {j}, f));
    if j != k {
      var rest := m - {j} - {k};
      assert rest == m - {k} - {j};
      SumWithout(m - {j}, f, k);
      SumWithout(m - {k}, f, j);
      PlusSwap(f(m[j]), f(m[k]), Sum(rest, f));
    }
  }

  lemma SumInsert<K(!new), V(!new)>(m: map<K, V>, f: V -> Amount, k: K, v: V)
    requires k !in m
    ensures Sum(m[k := v], f) == f(v).Plus(Sum(m, f))
  {
    SumWithout(m[k := v], f, k);
    assert m[k := v] - {k} == m;
  }

  /** Replacing the entry of a key trades its old contribution for the new one. */
  lemma SumReplace<K(!new), V(!new)>(m: map<K, V>, f: V -> Amount, k: K, v: V)
    requires k in m
    ensures Sum(m[k := v], f) == f(v).Plus(Sum(m - {k}, f))
    ensures Sum(m, f) == f(m[k]).Plus(Sum(m - {k}, f))
  {
    SumWithout(m, f, k);
    SumInsert(m - {k}, f, k, v);
    assert m[k := v] == (m - {k})[k := v];
  }

  lemma {:induction false} SumNonNegative<K(!new), V(!new)>(m: map<K, V>, f: V -> Amount)
    requires forall k <- m :: f(m[k]).NonNegative()
    ensures Sum(m, f).NonNegative()
    decreases |m|
  {
    if m != map[] {
      var k :| k in m;
      SumWithout(m, f, k);
      SumNonNegative(m - {k}, f);
      assert f(m[k]).NonNegative();
    }
  }

  /** Maps over the same keys whose entries contribute the same amounts have the same sum. */
  lemma {:induction false} SumSame<K(!new), V(!new), W(!new)>(m: map<K, V>, f: V -> Amount, w: map<K, W>,
                                                              g: W -> Amount)
    requires m.Keys == w.Keys
    requires forall k <- m :: f(m[k]) == g(w[k])
    ensures Sum(m, f) == Sum(w, g)
    decreases |m|
  {
    if m != map[] {
      var k :| k in m && Sum(m, f) == f(m[k]).Plus(Sum(m - {k}, f));
      SumWithout(w, g, k);
      SumSame(m - {k}, f, w - {k}, g);
    } else {
      assert w.Keys == {};
    }
  }

  /** One turn of a loop over a map that has visited the keys outside `todo`. */
  lemma SumVisit<K(!new), V(!new)>(m: map<K, V>, f: V -> Amount, todo: set<K>, k: K)
    requires k in todo && todo <= m.Keys
    ensures Sum(m - (todo - {k}), f) == f(m[k]).Plus(Sum(m - todo, f))
  {
    var visited := m - (todo - {k});
    SumWithout(visited, f, k);
    assert visited - {k} == m - todo;
  }

  /** Maps without a common key add up. */
  lemma {:induction false} SumOfBoth<K(!new), V(!new)>(x: map<K, V>, y: map<K, V>, f: V -> Amount)
    requires x.Keys !! y.Keys
    ensures Sum(x + y, f) == Sum(x, f).Plus(Sum(y, f))
    decreases |y|
  {
    if y == map[] {
      assert x + y == x;
    } else {
      var k :| k in y;
      var rest := y - {k};
      SumOfBoth(x, rest, f);
      TakenFromSecond(x, y, k);
      SumWithout(x + y, f, k);
      SumWithout(y, f, k);
      PlusSwap(f(y[k]), Sum(x, f), Sum(rest, f));
    }
  }

  lemma TakenFromSecond<K, V>(x: map<K, V>, y: map<K, V>, k: K)
    requires k in y && x.Keys !! y.Keys
    ensures k in x + y && (x + y)[k] == y[k] && x + y - {k} == x + (y - {k})
  {
  }

  // ---------------------------------------------------------------- sequences

  ghost function SeqSum<T(!new)>(s: seq<T>, f: T -> Amount): Amount {
    if s == [] then Zero else f(s[0]).Plus(SeqSum(s[1..], f))
  }

  lemma {:induction false} SeqSumConcat<T(!new)>(s: seq<T>, t: seq<T>, f: T -> Amount)
    ensures SeqSum(s + t, f) == SeqSum(s, f).Plus(SeqSum(t, f))
  {
    if s == [] {
      assert s + t == t;
    } else {
      assert (s + t)[1..] == s[1..] + t;
      SeqSumConcat(s[1..], t, f);
    }
  }

  lemma SplitLast<T>(s: seq<T>)
    requires s != []
    ensures s == s[..|s| - 1] + [s[|s| - 1]]
  {
  }

  lemma SeqSumAppend<T(!new)>(s: seq<T>, x: T, f: T -> Amount)
    ensures SeqSum(s + [x], f) == SeqSum(s, f).Plus(f(x))
  {
    SeqSumConcat(s, [x], f);
  }

  /** Where a permutation has the first element, and what it has besides. */
  lemma FindFirst<T(!new)>(s: seq<T>, t: seq<T>) returns (i: nat)
    requires s != [] && multiset(s) == multiset(t)
    ensures i < |t| && t[i] == s[0] && multiset(s[1..]) == multiset(t[..i] + t[i + 1..])
  {
    assert s[0] in multiset(t);
    i :| i < |t| && t[i] == s[0];
    assert t == t[..i] + [t[i]] + t[i + 1..];
    assert s == [s[0]] + s[1..];
    assert multiset(s[1..]) == multiset(s) - multiset{s[0]};
    assert multiset(t[..i] + t[i + 1..]) == multiset(t) - multiset{t[i]};
  }

  /** The order of a slice does not matter to its sum. */
  lemma {:induction false} SeqSumPermuted<T(!new)>(s: seq<T>, t: seq<T>, f: T -> Amount)
    requires multiset(s) == multiset(t)
    ensures SeqSum(s, f) == SeqSum(t, f)
    decreases |s|
  {
    if s == [] {
      assert |multiset(t)| == 0;
    } else {
      var i := FindFirst(s, t);
      SeqSumPermuted(s[1..], t[..i] + t[i + 1..], f);
      SeqSumTakeOut(t, i, f);
    }
  }

  lemma SeqSumTakeOut<T(!new)>(t: seq<T>, i: nat, f: T -> Amount)
    requires i < |t|
    ensures SeqSum(t, f) == f(t[i]).Plus(SeqSum(t[..i] + t[i + 1..], f))
  {
    var x, y, z := t[..i], t[i + 1..], t[i..];
    assert t == x + z;
    assert z[0] == t[i] && z[1..] == y;
    SeqSumConcat(x, z, f);
    SeqSumConcat(x, y, f);
    PlusSwap(SeqSum(x, f), f(t[i]), SeqSum(y, f));
  }
}
