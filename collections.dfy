/** What the model needs to say about enumerating a C# `Dictionary`, whose
    `Keys` and `Values` come in an order the language does not fix. */
module Collections {

  /** `xs` lists every element of `s` exactly once, in some order. */
  predicate IsEnumeration<T>(xs: seq<T>, s: set<T>)
  {
    multiset(xs) == multiset(s) && forall i :: 0 <= i < |xs| ==> xs[i] in s
  }

  /** An enumeration is exactly as long as the set it enumerates, lists
      each element once, and lists nothing else. */
  lemma EnumerationFacts<T>(xs: seq<T>, s: set<T>)
    requires IsEnumeration(xs, s)
    ensures |xs| == |s|
    ensures forall x :: x in xs <==> x in s
    ensures forall i, j :: 0 <= i < j < |xs| ==> xs[i] != xs[j]
  {
    assert |multiset(xs)| == |xs|;
    assert |multiset(s)| == |s|;
    forall x
      ensures x in xs <==> x in s
    {
      assert x in xs <==> x in multiset(xs);
    }
    forall i, j | 0 <= i < j < |xs|
      ensures xs[i] != xs[j]
    {
      ListedOnce(xs, s, i, j);
    }
  }

  lemma ListedOnce<T>(xs: seq<T>, s: set<T>, i: nat, j: nat)
    requires IsEnumeration(xs, s)
    requires i < j < |xs|
    ensures xs[i] != xs[j]
  {
    var front, back := xs[..j], xs[j..];
    assert xs == front + back;
    assert front[i] == xs[i] && back[0] == xs[j];
    assert multiset(xs) == multiset(front) + multiset(back);
    assert multiset(front)[xs[i]] >= 1 && multiset(back)[xs[j]] >= 1;
    assert multiset(s)[xs[j]] <= 1;
  }

  /** Lists the elements of a set in some order, as a `foreach` over a
      dictionary's key collection visits them. */
  method Enumerate<T(==)>(s: set<T>) returns (xs: seq<T>)
    ensures IsEnumeration(xs, s)
  {
    xs := [];
    var rest := s;
    while rest != {}
      invariant rest <= s
      invariant multiset(xs) + multiset(rest) == multiset(s)
      invariant forall i :: 0 <= i < |xs| ==> xs[i] in s
      decreases rest
    {
      var x :| x in rest;
      assert multiset(rest) == multiset(rest - {x}) + multiset{x};
      xs := xs + [x];
      rest := rest - {x};
    }
  }

  /** The values of `m` in the order of the keys `order`. */
  function ValuesInOrder<K, V>(m: map<K, V>, order: seq<K>): (vs: seq<V>)
    requires forall i :: 0 <= i < |order| ==> order[i] in m
    ensures |vs| == |order|
    ensures forall i :: 0 <= i < |order| ==> vs[i] == m[order[i]]
  {
    seq(|order|, i requires 0 <= i < |order| => m[order[i]])
  }
}
