/** Small datatypes and sums shared by the other modules. */
module Basics {

  datatype Option<+T> = None | Some(value: T)

  /** The elements of `s` are pairwise different. */
  predicate Distinct<T(==)>(s: seq<T>) {
    forall i, j :: 0 <= i < j < |s| ==> s[i] != s[j]
  }

  /** The sum of `f` over the elements of a sequence. */
  ghost function Total<T(!new)>(xs: seq<T>, f: T -> real): real {
    if xs == [] then 0.0 else Total(xs[..|xs| - 1], f) + f(xs[|xs| - 1])
  }

  lemma TotalAppend<T(!new)>(xs: seq<T>, x: T, f: T -> real)
    ensures Total(xs + [x], f) == Total(xs, f) + f(x)
  {
    assert (xs + [x])[..|xs|] == xs;
  }

  /** The sum of all values of a finite map. */
  ghost function SumValues<K>(m: map<K, real>): real {
    if m == map[] then 0.0
    else
      var k :| k in m;
      m[k] + SumValues(m - {k})
  }

  /** The sum does not depend on which key is taken out first. */
  lemma {:induction false} SumValuesTake<K>(m: map<K, real>, k: K)
    requires k in m
    ensures SumValues(m) == m[k] + SumValues(m - {k})
    decreases |m|
  {
    var c :| c in m && SumValues(m) == m[c] + SumValues(m - {c});
    if c != k {
      SumValuesTake(m - {c}, k);
      SumValuesTake(m - {k}, c);
      assert m - {c} - {k} == m - {k} - {c};
    }
  }

  /** Writing one entry moves the sum by the difference of the two values. */
  lemma {:induction false} SumValuesPut<K>(m: map<K, real>, k: K, v: real)
    ensures SumValues(m[k := v]) == SumValues(m) + v - (if k in m then m[k] else 0.0)
  {
    var w := m[k := v];
    SumValuesTake(w, k);
    if k in m {
      SumValuesTake(m, k);
      assert w - {k} == m - {k};
    } else {
      assert w - {k} == m;
    }
  }

  lemma SameLength<T>(a: seq<T>, b: seq<T>)
    requires multiset(a) == multiset(b)
    ensures |a| == |b|
  {
    assert |multiset(a)| == |multiset(b)|;
  }

  lemma TakenOut<T>(b: seq<T>, p: nat)
    requires p < |b|
    ensures multiset(b[..p] + b[p + 1..]) == multiset(b) - multiset{b[p]}
  {
    assert b == b[..p] + ([b[p]] + b[p + 1..]);
  }

  /** The last element of `a` stands somewhere in its permutation `b`, and can be taken out of both. */
  lemma WithoutLast<T>(a: seq<T>, b: seq<T>) returns (p: nat)
    requires multiset(a) == multiset(b) && a != []
    ensures p < |b| && b[p] == a[|a| - 1]
    ensures multiset(a[..|a| - 1]) == multiset(b[..p] + b[p + 1..])
  {
    var n := |a| - 1;
    TakenOut(a, n);
    assert a[..n] + a[n + 1..] == a[..n];
    assert a[n] in multiset(b);
    p :| 0 <= p < |b| && b[p] == a[n];
    TakenOut(b, p);
  }
}
