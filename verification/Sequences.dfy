/**
 Flattened maps over sequences: the shape of every bin function whose items do not influence each other.
 */
module Sequences {

  function FlatMap<A, B>(f: A -> seq<B>, s: seq<A>): seq<B> {
    if s == [] then [] else FlatMap(f, s[..|s| - 1]) + f(s[|s| - 1])
  }

  lemma FlatMapSnoc<A, B>(f: A -> seq<B>, s: seq<A>, x: A)
    ensures FlatMap(f, s + [x]) == FlatMap(f, s) + f(x)
  {
    assert (s + [x])[..|s|] == s;
  }

  lemma FlatMapOne<A, B>(f: A -> seq<B>, x: A)
    ensures FlatMap(f, [x]) == f(x)
  {
    assert [x][..0] == [];
    assert FlatMap(f, [x][..0]) == [];
  }

  lemma {:induction false} FlatMapConcat<A, B>(f: A -> seq<B>, a: seq<A>, b: seq<A>)
    ensures FlatMap(f, a + b) == FlatMap(f, a) + FlatMap(f, b)
  {
    if b == [] {
      assert a + b == a;
    } else {
      FlatMapConcat(f, a, b[..|b| - 1]);
      assert (a + b)[..|a + b| - 1] == a + b[..|b| - 1];
    }
  }

  lemma {:induction false} FlatMapCongruence<A, B>(f: A -> seq<B>, g: A -> seq<B>, s: seq<A>)
    requires forall x :: x in s ==> f(x) == g(x)
    ensures FlatMap(f, s) == FlatMap(g, s)
  {
    if s != [] {
      FlatMapCongruence(f, g, s[..|s| - 1]);
    }
  }

  lemma {:induction false} FlatMapMembers<A, B>(f: A -> seq<B>, s: seq<A>, y: B)
    ensures y in FlatMap(f, s) <==> exists x :: x in s && y in f(x)
  {
    if s != [] {
      var init, last := s[..|s| - 1], s[|s| - 1];
      assert s == init + [last];
      FlatMapMembers(f, init, y);
    }
  }

  lemma TakeNext<A>(s: seq<A>, i: nat)
    requires i < |s|
    ensures s[..i + 1] == s[..i] + [s[i]]
  {
  }

  lemma UpToLast<A>(s: seq<A>)
    requires s != []
    ensures s[..|s| - 1] + [s[|s| - 1]] == s
  {
  }

  lemma DropPrefix<A>(a: seq<A>, b: seq<A>)
    ensures (a + b)[|a|..] == b
  {
  }

  lemma ShiftFirst<A>(a: seq<A>, b: seq<A>)
    requires b != []
    ensures a + [b[0]] + b[1..] == a + b
  {
  }

  lemma ConcatInit<A>(a: seq<A>, b: seq<A>)
    requires b != []
    ensures (a + b)[..|a + b| - 1] == a + b[..|b| - 1] && (a + b)[|a + b| - 1] == b[|b| - 1]
  {
  }

  lemma ConcatSnoc<A>(a: seq<A>, b: seq<A>)
    requires b != []
    ensures a + b == (a + b[..|b| - 1]) + [b[|b| - 1]]
  {
  }

  /** A sequence around one of its elements. */
  lemma AroundElement<A>(s: seq<A>, k: nat)
    requires k < |s|
    ensures (s[..k] + [s[k]]) + s[k + 1..] == s && (s[..k] + [s[k]])[..k] == s[..k]
  {
  }

  function Without<A>(s: seq<A>, k: nat): seq<A>
    requires k < |s|
  {
    s[..k] + s[k + 1..]
  }

  lemma SplitAround<A>(s: seq<A>, k: nat)
    requires k < |s|
    ensures s == s[..k] + [s[k]] + s[k + 1..]
  {
  }

  lemma WithoutMultiset<A>(s: seq<A>, k: nat)
    requires k < |s|
    ensures multiset(s) == multiset(Without(s, k)) + multiset{s[k]}
    ensures forall x :: x in Without(s, k) ==> x in s
  {
    assert s == s[..k] + ([s[k]] + s[k + 1..]);
  }

  lemma MiddleOut<A>(a: seq<A>, middle: seq<A>, b: seq<A>)
    ensures multiset(a + middle + b) == multiset(a + b) + multiset(middle)
  {
  }

  lemma FlatMapMiddle<A, B>(f: A -> seq<B>, before: seq<A>, x: A, after: seq<A>)
    ensures multiset(FlatMap(f, before + [x] + after)) == multiset(FlatMap(f, before + after)) + multiset(f(x))
  {
    FlatMapConcat(f, before + [x], after);
    FlatMapSnoc(f, before, x);
    FlatMapConcat(f, before, after);
    MiddleOut(FlatMap(f, before), f(x), FlatMap(f, after));
  }

  /** Taking an input out takes its outputs out. */
  lemma FlatMapWithout<A, B>(f: A -> seq<B>, s: seq<A>, k: nat)
    requires k < |s|
    ensures multiset(FlatMap(f, s)) == multiset(FlatMap(f, Without(s, k))) + multiset(f(s[k]))
  {
    SplitAround(s, k);
    FlatMapMiddle(f, s[..k], s[k], s[k + 1..]);
  }

  /** Permuting the inputs permutes the outputs. */
  lemma {:induction false} FlatMapPermutation<A, B>(f: A -> seq<B>, a: seq<A>, b: seq<A>)
    requires multiset(a) == multiset(b)
    ensures multiset(FlatMap(f, a)) == multiset(FlatMap(f, b))
    decreases |a|
  {
    if a == [] {
      assert |multiset(b)| == |b|;
    } else {
      var n := |a| - 1;
      assert a[n] in multiset(b);
      var k :| 0 <= k < |b| && b[k] == a[n];
      WithoutMultiset(a, n);
      WithoutMultiset(b, k);
      SameRest(Without(a, n), Without(b, k), a[n]);
      FlatMapPermutation(f, Without(a, n), Without(b, k));
      FlatMapWithout(f, a, n);
      FlatMapWithout(f, b, k);
    }
  }

  lemma SameRest<A>(a: seq<A>, b: seq<A>, x: A)
    requires multiset(a) + multiset{x} == multiset(b) + multiset{x}
    ensures multiset(a) == multiset(b)
  {
    assert multiset(a) == (multiset(a) + multiset{x}) - multiset{x};
    assert multiset(b) == (multiset(b) + multiset{x}) - multiset{x};
  }

  /** Inputs with at most one output each can be permuted so that the outputs come in any order. */
  lemma {:induction false} Reorder<A, B>(f: A -> seq<B>, pool: seq<A>, wanted: seq<B>) returns (order: seq<A>)
    requires forall x :: x in pool ==> |f(x)| <= 1
    requires multiset(wanted) == multiset(FlatMap(f, pool))
    ensures multiset(order) == multiset(pool)
    ensures FlatMap(f, order) == wanted
    decreases |wanted|
  {
    if wanted == [] {
      OnlyEmpty(FlatMap(f, pool));
      order := pool;
    } else {
      var n := |wanted| - 1;
      var k := Producer(f, pool, wanted, n);
      var rest := Reorder(f, Without(pool, k), wanted[..n]);
      FlatMapSnoc(f, rest, pool[k]);
      SplitAround(wanted, n);
      assert wanted[n + 1..] == [];
      order := rest + [pool[k]];
    }
  }

  lemma OnlyEmpty<A>(s: seq<A>)
    requires multiset(s) == multiset{}
    ensures s == []
  {
    assert |multiset(s)| == |s|;
  }

  /** An input that produces the given output, and what is left without both. */
  lemma Producer<A, B>(f: A -> seq<B>, pool: seq<A>, wanted: seq<B>, n: nat) returns (k: nat)
    requires forall x :: x in pool ==> |f(x)| <= 1
    requires multiset(wanted) == multiset(FlatMap(f, pool)) && n + 1 == |wanted|
    ensures k < |pool| && f(pool[k]) == [wanted[n]]
    ensures multiset(pool) == multiset(Without(pool, k)) + multiset{pool[k]}
    ensures forall x :: x in Without(pool, k) ==> x in pool
    ensures multiset(wanted[..n]) == multiset(FlatMap(f, Without(pool, k)))
  {
    assert wanted[n] in multiset(FlatMap(f, pool));
    FlatMapMembers(f, pool, wanted[n]);
    var x :| x in pool && wanted[n] in f(x);
    k :| 0 <= k < |pool| && pool[k] == x;
    assert f(x) == [wanted[n]];
    WithoutMultiset(pool, k);
    WithoutMultiset(wanted, n);
    FlatMapWithout(f, pool, k);
    assert Without(wanted, n) == wanted[..n];
    SameRest(wanted[..n], FlatMap(f, Without(pool, k)), wanted[n]);
  }
}
