/** Small shared definitions: optional values, results, the order of strings and a
    few functions over sequences. */
module Basics {

  datatype Option<+T> = None | Some(value: T)

  datatype Result<+T> = Success(value: T) | Failure(error: string) {
    predicate IsFailure() { Failure? }

    function PropagateFailure<U>(): Result<U>
      requires Failure?
    {
      Failure(error)
    }

    function Extract(): T
      requires Success?
    {
      value
    }
  }

  /** Success when the condition holds, the error otherwise. */
  function Require(condition: bool, error: string): Result<()> {
    if condition then Success(()) else Failure(error)
  }

  // ---- The order of strings ----------------------------------------------------

  /** Strings in the order of their characters. */
  predicate StringLess(a: string, b: string) {
    b != "" && (a == "" || a[0] < b[0] || (a[0] == b[0] && StringLess(a[1..], b[1..])))
  }

  lemma {:induction false} StringOrderTotal(a: string, b: string)
    ensures StringLess(a, b) || StringLess(b, a) || a == b
    ensures !(StringLess(a, b) && StringLess(b, a))
    ensures !StringLess(a, a)
  {
    if a != "" {
      StringOrderTotal(a[1..], a[1..]);
      if b != "" {
        StringOrderTotal(a[1..], b[1..]);
        assert a == [a[0]] + a[1..] && b == [b[0]] + b[1..];
      }
    }
  }

  lemma {:induction false} StringOrderTransitive(a: string, b: string, c: string)
    requires StringLess(a, b) && StringLess(b, c)
    ensures StringLess(a, c)
  {
    if a != "" && a[0] == b[0] == c[0] {
      StringOrderTransitive(a[1..], b[1..], c[1..]);
    }
  }

  // ---- Sequences ------------------------------------------------------------------

  predicate NoDuplicates<T(==)>(xs: seq<T>) {
    forall i, j | 0 <= i < j < |xs| :: xs[i] != xs[j]
  }

  /** The elements of `xs` in the order of their first occurrence. */
  function Distinct<T(==, !new)>(xs: seq<T>): (r: seq<T>)
    ensures NoDuplicates(r)
    ensures forall x :: x in r <==> x in xs
  {
    if xs == [] then []
    else
      var front, last := Distinct(xs[..|xs| - 1]), xs[|xs| - 1];
      assert xs == xs[..|xs| - 1] + [last];
      if last in front then front else front + [last]
  }

  function Filter<T>(xs: seq<T>, keep: T -> bool): (r: seq<T>)
    ensures |r| <= |xs|
  {
    if xs == [] then []
    else (if keep(xs[0]) then [xs[0]] else []) + Filter(xs[1..], keep)
  }

  function Map<T, U>(xs: seq<T>, f: T -> U): (r: seq<U>)
    ensures |r| == |xs|
    ensures forall i | 0 <= i < |xs| :: r[i] == f(xs[i])
  {
    if xs == [] then [] else [f(xs[0])] + Map(xs[1..], f)
  }

  /** The results of `f` in order, or the first failure. */
  function Traverse<T, U>(xs: seq<T>, f: T -> Result<U>): (r: Result<seq<U>>)
    ensures r.Success? ==> |r.value| == |xs| && forall i | 0 <= i < |xs| :: f(xs[i]) == Success(r.value[i])
  {
    if xs == [] then Success([])
    else
      var first :- f(xs[0]);
      var rest :- Traverse(xs[1..], f);
      Success([first] + rest)
  }

  function Flatten<T>(xs: seq<seq<T>>): seq<T> {
    if xs == [] then [] else xs[0] + Flatten(xs[1..])
  }

  function Sum(xs: seq<int>): int {
    if xs == [] then 0 else xs[0] + Sum(xs[1..])
  }

  function Total(xs: seq<real>): real {
    if xs == [] then 0.0 else xs[0] + Total(xs[1..])
  }

  function Take<T>(xs: seq<T>, n: nat): seq<T> {
    if |xs| <= n then xs else xs[..n]
  }

  lemma {:induction false} FilterMember<T>(xs: seq<T>, keep: T -> bool, x: T)
    ensures x in Filter(xs, keep) <==> x in xs && keep(x)
  {
    if xs != [] {
      FilterMember(xs[1..], keep, x);
      assert x in xs <==> x == xs[0] || x in xs[1..];
    }
  }

  lemma FilterMembers<T(!new)>(xs: seq<T>, keep: T -> bool)
    ensures forall x :: x in Filter(xs, keep) <==> x in xs && keep(x)
  {
    forall x ensures x in Filter(xs, keep) <==> x in xs && keep(x) { FilterMember(xs, keep, x); }
  }

  lemma {:induction false} FilterAgrees<T>(xs: seq<T>, p: T -> bool, q: T -> bool)
    requires forall x | x in xs :: p(x) == q(x)
    ensures Filter(xs, p) == Filter(xs, q)
  {
    if xs != [] {
      FilterAgrees(xs[1..], p, q);
    }
  }

  lemma Associative<T>(xs: seq<T>, ys: seq<T>, zs: seq<T>)
    ensures xs + (ys + zs) == (xs + ys) + zs
  {
  }

  lemma FilterCons<T>(x: T, rest: seq<T>, p: T -> bool)
    ensures Filter([x] + rest, p) == (if p(x) then [x] else []) + Filter(rest, p)
  {
    assert ([x] + rest)[1..] == rest;
  }

  lemma {:induction false} FilterAppend<T>(xs: seq<T>, ys: seq<T>, p: T -> bool)
    ensures Filter(xs + ys, p) == Filter(xs, p) + Filter(ys, p)
  {
    if xs == [] {
      assert xs + ys == ys;
    } else {
      hide Filter;
      var x, rest := xs[0], xs[1..];
      FilterAppend(rest, ys, p);
      assert xs == [x] + rest && xs + ys == [x] + (rest + ys);
      FilterCons(x, rest, p);
      FilterCons(x, rest + ys, p);
      Associative(if p(x) then [x] else [], Filter(rest, p), Filter(ys, p));
    }
  }

  lemma {:induction false} FilterUnique<T>(xs: seq<T>, p: T -> bool)
    requires NoDuplicates(xs)
    ensures NoDuplicates(Filter(xs, p))
  {
    if xs != [] {
      FilterUnique(xs[1..], p);
      FilterMember(xs[1..], p, xs[0]);
    }
  }

  /** Keeping and dropping split a sequence. */
  lemma {:induction false} FilterSplit<T>(xs: seq<T>, p: T -> bool, q: T -> bool)
    requires forall x | x in xs :: p(x) == !q(x)
    ensures |Filter(xs, p)| + |Filter(xs, q)| == |xs|
  {
    if xs != [] {
      FilterSplit(xs[1..], p, q);
    }
  }

  lemma {:induction false} FilterAll<T>(xs: seq<T>, p: T -> bool)
    requires forall x | x in xs :: p(x)
    ensures Filter(xs, p) == xs
  {
    if xs != [] {
      FilterAll(xs[1..], p);
    }
  }

  lemma {:induction false} FilterNone<T>(xs: seq<T>, p: T -> bool)
    requires forall x | x in xs :: !p(x)
    ensures Filter(xs, p) == []
  {
    if xs != [] {
      FilterNone(xs[1..], p);
    }
  }

  lemma {:induction false} DistinctSize<T(!new)>(xs: seq<T>)
    requires NoDuplicates(xs)
    ensures |set x | x in xs| == |xs|
  {
    if xs != [] {
      DistinctSize(xs[1..]);
      assert (set x | x in xs) == {xs[0]} + (set x | x in xs[1..]);
    }
  }

  // ---- Traversals ------------------------------------------------------------------

  lemma TraverseOne<T, U>(x: T, f: T -> Result<U>)
    ensures Traverse([], f) == Success([])
    ensures f(x).Success? ==> Traverse([x], f) == Success([f(x).value])
  {
    assert [x][1..] == [];
    if f(x).Success? { assert [f(x).value] + [] == [f(x).value]; }
  }

  /** One more element either extends the results or is the failure of the whole. */
  lemma {:induction false} TraverseNext<T, U>(xs: seq<T>, i: nat, f: T -> Result<U>)
    requires i < |xs| && Traverse(xs[..i], f).Success?
    ensures f(xs[i]).Success? ==> Traverse(xs[..i + 1], f) == Success(Traverse(xs[..i], f).value + [f(xs[i]).value])
    ensures f(xs[i]).Failure? ==> Traverse(xs, f) == Failure(f(xs[i]).error)
  {
    if i == 0 {
      assert xs[..i] == [] && xs[..i + 1] == [xs[0]];
      TraverseOne(xs[0], f);
      if f(xs[0]).Success? { assert [] + [f(xs[0]).value] == [f(xs[0]).value]; }
    } else {
      assert xs[..i][1..] == xs[1..][..i - 1] && xs[..i + 1][1..] == xs[1..][..i];
      assert xs[..i][0] == xs[0] == xs[..i + 1][0];
      TraverseNext(xs[1..], i - 1, f);
      if f(xs[i]).Success? {
        var first, rest, last := f(xs[0]).value, Traverse(xs[1..][..i - 1], f).value, f(xs[i]).value;
        assert [first] + (rest + [last]) == ([first] + rest) + [last];
      }
    }
  }

  // ---- Permutations -----------------------------------------------------------------

  /** Where the first element of a sequence stands in a permutation of it. */
  lemma Located<T>(xs: seq<T>, ys: seq<T>) returns (k: nat)
    requires xs != [] && multiset(xs) == multiset(ys)
    ensures k < |ys| && ys[k] == xs[0]
    ensures multiset(xs[1..]) == multiset(ys[..k] + ys[k + 1..])
  {
    assert xs[0] in multiset(ys) by { assert xs[0] in multiset(xs); }
    k :| 0 <= k < |ys| && ys[k] == xs[0];
    assert xs == [xs[0]] + xs[1..];
    assert multiset(xs) == multiset{xs[0]} + multiset(xs[1..]);
    assert ys == ys[..k] + ([ys[k]] + ys[k + 1..]);
    assert multiset(ys) == multiset{ys[k]} + multiset(ys[..k] + ys[k + 1..]);
    assert multiset(xs) - multiset{xs[0]} == multiset(xs[1..]);
    assert multiset(ys) - multiset{ys[k]} == multiset(ys[..k] + ys[k + 1..]);
  }

  lemma DropHead<T>(xs: seq<T>, ys: seq<T>)
    requires xs != [] && ys != [] && xs[0] == ys[0] && multiset(xs) == multiset(ys)
    ensures multiset(xs[1..]) == multiset(ys[1..])
  {
    assert xs == [xs[0]] + xs[1..] && ys == [ys[0]] + ys[1..];
    assert multiset(xs) - multiset{xs[0]} == multiset(xs[1..]) && multiset(ys) - multiset{ys[0]} == multiset(ys[1..]);
  }

  lemma {:induction false} MapAppend<T, U>(xs: seq<T>, ys: seq<T>, f: T -> U)
    ensures Map(xs + ys, f) == Map(xs, f) + Map(ys, f)
  {
  }

  lemma {:induction false} MapPermuted<T, U>(xs: seq<T>, ys: seq<T>, f: T -> U)
    requires multiset(xs) == multiset(ys)
    ensures multiset(Map(xs, f)) == multiset(Map(ys, f))
  {
    if xs == [] {
      assert |ys| == 0 by { assert |multiset(ys)| == 0; }
    } else {
      var k := Located(xs, ys);
      MapPermuted(xs[1..], ys[..k] + ys[k + 1..], f);
      assert ys == ys[..k] + ([ys[k]] + ys[k + 1..]);
      MapAppend(ys[..k], [ys[k]] + ys[k + 1..], f);
      MapAppend([ys[k]], ys[k + 1..], f);
      MapAppend(ys[..k], ys[k + 1..], f);
      MapAppend([xs[0]], xs[1..], f);
      assert xs == [xs[0]] + xs[1..];
      var x, rest, before, after := Map([xs[0]], f), Map(xs[1..], f), Map(ys[..k], f), Map(ys[k + 1..], f);
      assert multiset(Map(xs, f)) == multiset(x) + multiset(rest);
      assert multiset(Map(ys, f)) == multiset(before) + (multiset(x) + multiset(after));
      assert multiset(rest) == multiset(before) + multiset(after);
    }
  }

  lemma {:induction false} FilterPermuted<T>(xs: seq<T>, ys: seq<T>, p: T -> bool)
    requires multiset(xs) == multiset(ys)
    ensures multiset(Filter(xs, p)) == multiset(Filter(ys, p))
  {
    if xs == [] {
      assert |ys| == 0 by { assert |multiset(ys)| == 0; }
    } else {
      var k := Located(xs, ys);
      FilterPermuted(xs[1..], ys[..k] + ys[k + 1..], p);
      assert ys == ys[..k] + ([ys[k]] + ys[k + 1..]);
      FilterAppend(ys[..k], [ys[k]] + ys[k + 1..], p);
      FilterAppend([ys[k]], ys[k + 1..], p);
      FilterAppend(ys[..k], ys[k + 1..], p);
    }
  }

  lemma {:induction false} TotalAppend(xs: seq<real>, ys: seq<real>)
    ensures Total(xs + ys) == Total(xs) + Total(ys)
  {
    if xs == [] {
      assert xs + ys == ys;
    } else {
      TotalAppend(xs[1..], ys);
      assert (xs + ys)[1..] == xs[1..] + ys;
    }
  }

  lemma {:induction false} TotalPermuted(xs: seq<real>, ys: seq<real>)
    requires multiset(xs) == multiset(ys)
    ensures Total(xs) == Total(ys)
  {
    if xs == [] {
      assert |ys| == 0 by { assert |multiset(ys)| == 0; }
    } else {
      var k := Located(xs, ys);
      TotalPermuted(xs[1..], ys[..k] + ys[k + 1..]);
      assert ys == ys[..k] + ([ys[k]] + ys[k + 1..]);
      TotalAppend(ys[..k], [ys[k]] + ys[k + 1..]);
      TotalAppend([ys[k]], ys[k + 1..]);
      TotalAppend(ys[..k], ys[k + 1..]);
    }
  }

  lemma {:induction false} OnceEach<T>(xs: seq<T>, x: T)
    requires NoDuplicates(xs)
    ensures multiset(xs)[x] == if x in xs then 1 else 0
  {
    if xs != [] {
      OnceEach(xs[1..], x);
      assert xs == [xs[0]] + xs[1..];
    }
  }

  /** The same elements, none twice, are permutations of each other. */
  lemma SameElements<T(!new)>(xs: seq<T>, ys: seq<T>)
    requires NoDuplicates(xs) && NoDuplicates(ys)
    requires forall x :: x in xs <==> x in ys
    ensures multiset(xs) == multiset(ys)
  {
    forall x ensures multiset(xs)[x] == multiset(ys)[x] {
      OnceEach(xs, x);
      OnceEach(ys, x);
    }
  }

  lemma DistinctPermuted<T>(xs: seq<T>, ys: seq<T>)
    requires NoDuplicates(xs) && multiset(xs) == multiset(ys)
    ensures NoDuplicates(ys)
  {
    forall i, j | 0 <= i < j < |ys| ensures ys[i] != ys[j] {
      OnceEach(xs, ys[i]);
      assert ys == ys[..j] + [ys[j]] + ys[j + 1..];
      assert ys[..j][i] == ys[i];
      assert ys[i] in multiset(ys[..j]);
      assert ys[i] == ys[j] ==> multiset(ys)[ys[i]] >= 2;
    }
  }
}
