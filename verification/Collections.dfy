/** Facts about sequences and sets. */
module Collections {
  lemma Reassociate<T>(a: seq<T>, b: seq<T>, c: seq<T>)
    ensures a + b + c == a + (b + c)
  {
  }

  lemma Around<T>(a: seq<T>, j: nat)
    requires j < |a|
    ensures a == a[..j] + [a[j]] + a[j + 1..]
  {
  }

  lemma MultisetAround<T>(a: seq<T>, j: nat)
    requires j < |a|
    ensures multiset(a) == multiset(a[..j] + a[j + 1..]) + multiset{a[j]}
  {
    Around(a, j);
  }

  lemma WithoutOne<T>(a: seq<T>, b: seq<T>, j: nat)
    requires multiset(a) == multiset(b) && a != [] && j < |b| && b[j] == a[|a| - 1]
    ensures multiset(a[..|a| - 1]) == multiset(b[..j] + b[j + 1..])
  {
    var n := |a| - 1;
    var m, k := multiset(a[..n]), multiset(b[..j] + b[j + 1..]);
    MultisetAround(a, n);
    MultisetAround(b, j);
    assert a[..n] + a[n + 1..] == a[..n];
    assert m + multiset{a[n]} == k + multiset{a[n]};
    assert m == (m + multiset{a[n]}) - multiset{a[n]};
    assert k == (k + multiset{a[n]}) - multiset{a[n]};
  }

  lemma {:induction false} Subset<T>(a: set<T>, b: set<T>)
    requires a <= b
    ensures |a| <= |b|
  {
    if a != {} {
      var x :| x in a;
      Subset(a - {x}, b - {x});
    }
  }
}
