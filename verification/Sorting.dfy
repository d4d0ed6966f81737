/** Sorting by a strict order: the stable sort of the retrieval code, and what an
    unstable sort of the database leaves open. */
module Sorting {
  import opened Basics

  function Insert<T>(x: T, xs: seq<T>, before: (T, T) -> bool): seq<T> {
    if xs == [] || !before(xs[0], x) then [x] + xs else [xs[0]] + Insert(x, xs[1..], before)
  }

  /** The elements in order; elements of equal rank keep their places. */
  function SortBy<T>(xs: seq<T>, before: (T, T) -> bool): seq<T> {
    if xs == [] then [] else Insert(xs[0], SortBy(xs[1..], before), before)
  }

  /** A strict weak order on the elements of a sequence. */
  ghost predicate StrictOrder<T(!new)>(before: (T, T) -> bool, xs: seq<T>) {
    && (forall a, b | a in xs && b in xs && before(a, b) :: !before(b, a))
    && (forall a, b, c | a in xs && b in xs && c in xs && !before(b, a) && !before(c, b) :: !before(c, a))
  }

  ghost predicate Separates<T(!new)>(before: (T, T) -> bool, xs: seq<T>) {
    forall a, b | a in xs && b in xs && a != b :: before(a, b) || before(b, a)
  }

  predicate SortedBy<T>(xs: seq<T>, before: (T, T) -> bool) {
    forall i, j | 0 <= i < j < |xs| :: !before(xs[j], xs[i])
  }

  lemma {:induction false} InsertKeeps<T>(x: T, xs: seq<T>, before: (T, T) -> bool)
    ensures multiset(Insert(x, xs, before)) == multiset{x} + multiset(xs)
  {
    if xs != [] && before(xs[0], x) {
      InsertKeeps(x, xs[1..], before);
      assert xs == [xs[0]] + xs[1..];
    }
  }

  lemma {:induction false} SortKeeps<T>(xs: seq<T>, before: (T, T) -> bool)
    ensures multiset(SortBy(xs, before)) == multiset(xs)
    ensures |SortBy(xs, before)| == |xs|
  {
    if xs != [] {
      SortKeeps(xs[1..], before);
      InsertKeeps(xs[0], SortBy(xs[1..], before), before);
      assert xs == [xs[0]] + xs[1..];
    }
    assert |multiset(SortBy(xs, before))| == |multiset(xs)|;
  }

  lemma PermutedElements<T(!new)>(xs: seq<T>, ys: seq<T>)
    requires multiset(xs) == multiset(ys)
    ensures |xs| == |ys| && forall x :: x in xs <==> x in ys
  {
    assert |multiset(xs)| == |multiset(ys)|;
    forall x ensures x in xs <==> x in ys {
      assert x in multiset(xs) <==> x in multiset(ys);
    }
  }

  lemma {:induction false} InsertSorted<T(!new)>(x: T, xs: seq<T>, before: (T, T) -> bool)
    requires SortedBy(xs, before) && StrictOrder(before, [x] + xs)
    ensures SortedBy(Insert(x, xs, before), before)
  {
    var all := [x] + xs;
    assert forall y :: y in all <==> y == x || y in xs;
    if xs != [] {
      if before(xs[0], x) {
        assert forall y | y in [x] + xs[1..] :: y in all;
        InsertSorted(x, xs[1..], before);
        var rest := Insert(x, xs[1..], before);
        InsertKeeps(x, xs[1..], before);
        assert multiset([x] + xs[1..]) == multiset(rest);
        PermutedElements([x] + xs[1..], rest);
        forall i | 0 <= i < |rest| ensures !before(rest[i], xs[0]) {
          assert rest[i] in rest;
          if rest[i] != x {
            var k :| 0 < k < |xs| && xs[k] == rest[i];
          }
        }
      } else {
        forall i | 0 <= i < |xs| ensures !before(xs[i], x) {
          assert xs[0] in all && xs[i] in all && x in all;
        }
      }
    }
  }

  lemma {:induction false} SortSorts<T(!new)>(xs: seq<T>, before: (T, T) -> bool)
    requires StrictOrder(before, xs)
    ensures SortedBy(SortBy(xs, before), before)
  {
    if xs != [] {
      var rest := SortBy(xs[1..], before);
      assert forall y | y in xs[1..] :: y in xs;
      SortSorts(xs[1..], before);
      SortKeeps(xs[1..], before);
      PermutedElements(xs[1..], rest);
      assert forall y | y in [xs[0]] + rest :: y in xs;
      InsertSorted(xs[0], rest, before);
    }
  }

  lemma SameFirst<T(!new)>(xs: seq<T>, ys: seq<T>, before: (T, T) -> bool)
    requires xs != [] && multiset(xs) == multiset(ys) && SortedBy(xs, before) && SortedBy(ys, before)
    requires Separates(before, xs)
    ensures ys != [] && xs[0] == ys[0]
  {
    PermutedElements(xs, ys);
    var k := Located(xs, ys);
    var j := Located(ys, xs);
    assert xs[0] in xs && ys[0] in xs;
  }

  /** When the order separates different elements, there is one sorted permutation. */
  lemma {:induction false} SortedOnce<T(!new)>(xs: seq<T>, ys: seq<T>, before: (T, T) -> bool)
    requires multiset(xs) == multiset(ys) && SortedBy(xs, before) && SortedBy(ys, before)
    requires Separates(before, xs)
    ensures xs == ys
  {
    if xs == [] {
      assert |ys| == 0 by { assert |multiset(ys)| == 0; }
    } else {
      SameFirst(xs, ys, before);
      DropHead(xs, ys);
      assert forall y | y in xs[1..] :: y in xs;
      SortedOnce(xs[1..], ys[1..], before);
      assert xs == [xs[0]] + xs[1..] && ys == [ys[0]] + ys[1..];
    }
  }

  /** The sorted result does not depend on the order of the input. */
  lemma SortPermuted<T(!new)>(xs: seq<T>, ys: seq<T>, before: (T, T) -> bool)
    requires multiset(xs) == multiset(ys) && StrictOrder(before, xs) && Separates(before, xs)
    ensures SortBy(xs, before) == SortBy(ys, before)
  {
    PermutedElements(xs, ys);
    SortKeeps(xs, before);
    SortKeeps(ys, before);
    SortSorts(xs, before);
    SortSorts(ys, before);
    PermutedElements(xs, SortBy(xs, before));
    SortedOnce(SortBy(xs, before), SortBy(ys, before), before);
  }

  // ---- The first places of a sort that need not be stable ------------------------------------

  predicate Tied<T>(before: (T, T) -> bool, a: T, b: T) {
    !before(a, b) && !before(b, a)
  }

  /** How many elements are strictly before `x`. */
  function Rank<T>(xs: seq<T>, before: (T, T) -> bool, x: T): nat {
    |Filter(xs, (y: T) => before(y, x))|
  }

  /** Two different tied elements reach the first `n` places. */
  ghost predicate Ambiguous<T(!new)>(xs: seq<T>, before: (T, T) -> bool, n: nat) {
    exists a, b | a in xs && b in xs :: a != b && Tied(before, a, b) && Rank(xs, before, a) < n
  }

  ghost predicate SortOf<T(!new)>(ys: seq<T>, xs: seq<T>, before: (T, T) -> bool) {
    multiset(ys) == multiset(xs) && SortedBy(ys, before)
  }

  /** All sorted permutations agree on the first `n` places. */
  ghost predicate CutIsFixed<T(!new)>(xs: seq<T>, before: (T, T) -> bool, n: nat) {
    forall ys, zs | SortOf(ys, xs, before) && SortOf(zs, xs, before) :: Take(ys, n) == Take(zs, n)
  }

  lemma RankPermuted<T(!new)>(xs: seq<T>, ys: seq<T>, before: (T, T) -> bool, x: T)
    requires multiset(xs) == multiset(ys)
    ensures Rank(xs, before, x) == Rank(ys, before, x)
  {
    var p := (y: T) => before(y, x);
    FilterPermuted(xs, ys, p);
    assert |multiset(Filter(xs, p))| == |multiset(Filter(ys, p))|;
  }

  lemma RankFirst<T(!new)>(xs: seq<T>, before: (T, T) -> bool, x: T)
    requires forall y | y in xs :: !before(y, x)
    ensures Rank(xs, before, x) == 0
  {
    FilterNone(xs, (y: T) => before(y, x));
  }

  /** At most the elements in front are strictly before an element of a sorted sequence. */
  lemma RankAtMost<T(!new)>(ys: seq<T>, before: (T, T) -> bool, k: nat)
    requires k < |ys| && SortedBy(ys, before) && !before(ys[k], ys[k])
    ensures Rank(ys, before, ys[k]) <= k
  {
    var p := (y: T) => before(y, ys[k]);
    assert ys == ys[..k] + ys[k..];
    FilterAppend(ys[..k], ys[k..], p);
    forall y | y in ys[k..] ensures !p(y) {
      var j :| k <= j < |ys| && ys[j] == y;
    }
    FilterNone(ys[k..], p);
  }

  lemma RankAtLeast<T(!new)>(ys: seq<T>, before: (T, T) -> bool, k: nat, x: T)
    requires k <= |ys| && forall i | 0 <= i < k :: before(ys[i], x)
    ensures Rank(ys, before, x) >= k
  {
    var p := (y: T) => before(y, x);
    assert ys == ys[..k] + ys[k..];
    FilterAppend(ys[..k], ys[k..], p);
    FilterAll(ys[..k], p);
  }

  /** The same place of two sorted permutations holds tied elements. */
  lemma SamePlaceTied<T(!new)>(ys: seq<T>, zs: seq<T>, xs: seq<T>, before: (T, T) -> bool, k: nat)
    requires SortOf(ys, xs, before) && SortOf(zs, xs, before) && StrictOrder(before, xs) && k < |ys| && k < |zs|
    ensures !before(ys[k], zs[k])
  {
    PermutedElements(xs, ys);
    PermutedElements(xs, zs);
    assert ys[k] in xs && zs[k] in xs;
    if before(ys[k], zs[k]) {
      forall i | 0 <= i < k + 1 ensures before(ys[i], zs[k]) {
        assert ys[i] in xs;
      }
      RankAtLeast(ys, before, k + 1, zs[k]);
      RankAtMost(zs, before, k);
      RankPermuted(ys, zs, before, zs[k]);
      assert false;
    }
  }

  lemma UnambiguousCut<T(!new)>(xs: seq<T>, before: (T, T) -> bool, n: nat, ys: seq<T>, zs: seq<T>)
    requires StrictOrder(before, xs) && !Ambiguous(xs, before, n)
    requires SortOf(ys, xs, before) && SortOf(zs, xs, before)
    ensures Take(ys, n) == Take(zs, n)
  {
    PermutedElements(xs, ys);
    PermutedElements(xs, zs);
    forall k | 0 <= k < |ys| && k < n ensures ys[k] == zs[k] {
      assert ys[k] in xs && zs[k] in xs;
      SamePlaceTied(ys, zs, xs, before, k);
      SamePlaceTied(zs, ys, xs, before, k);
      RankAtMost(ys, before, k);
      RankPermuted(xs, ys, before, ys[k]);
      assert Tied(before, ys[k], zs[k]);
    }
  }

  /** A stable sort puts an element right behind those strictly before it. */
  lemma {:induction false} InsertAt<T(!new)>(x: T, xs: seq<T>, before: (T, T) -> bool)
    requires SortedBy(xs, before) && StrictOrder(before, [x] + xs)
    ensures Rank(xs, before, x) < |Insert(x, xs, before)|
    ensures Insert(x, xs, before)[Rank(xs, before, x)] == x
  {
    var all := [x] + xs;
    assert forall y :: y in all <==> y == x || y in xs;
    if xs != [] {
      if before(xs[0], x) {
        assert forall y | y in [x] + xs[1..] :: y in all;
        InsertAt(x, xs[1..], before);
      } else {
        forall y | y in xs ensures !before(y, x) {
          var k :| 0 <= k < |xs| && xs[k] == y;
          assert xs[0] in all && y in all && x in all;
        }
        FilterNone(xs, (y: T) => before(y, x));
      }
    }
  }

  /** Some sorted permutation has a given element at its rank. */
  lemma SortWith<T(!new)>(xs: seq<T>, before: (T, T) -> bool, x: T) returns (ys: seq<T>)
    requires StrictOrder(before, xs) && x in xs
    ensures SortOf(ys, xs, before) && Rank(xs, before, x) < |ys| && ys[Rank(xs, before, x)] == x
  {
    var i :| 0 <= i < |xs| && xs[i] == x;
    var rest := xs[..i] + xs[i + 1..];
    var front := [x] + rest;
    assert xs == xs[..i] + ([x] + xs[i + 1..]);
    assert multiset(front) == multiset(xs);
    PermutedElements(xs, front);
    ys := SortBy(front, before);
    SortKeeps(front, before);
    SortSorts(front, before);
    SortKeeps(rest, before);
    var sorted := SortBy(rest, before);
    assert front[0] == x && front[1..] == rest;
    PermutedElements(rest, sorted);
    assert forall y | y in rest :: y in front;
    SortSorts(rest, before);
    assert forall y | y in [x] + sorted :: y in xs;
    InsertAt(x, sorted, before);
    RankPermuted(rest, sorted, before, x);
    RankPermuted(xs, front, before, x);
    FilterCons(x, rest, (y: T) => before(y, x));
  }

  /** The first `n` places are the same in all sorted permutations if and only if no two
      different tied elements reach them. */
  lemma CutIsFixedExactly<T(!new)>(xs: seq<T>, before: (T, T) -> bool, n: nat)
    requires StrictOrder(before, xs)
    ensures CutIsFixed(xs, before, n) <==> !Ambiguous(xs, before, n)
  {
    if Ambiguous(xs, before, n) {
      var a, b :| a in xs && b in xs && a != b && Tied(before, a, b) && Rank(xs, before, a) < n;
      TiedRanks(xs, before, a, b);
      var ys := SortWith(xs, before, a);
      var zs := SortWith(xs, before, b);
      assert Take(ys, n)[Rank(xs, before, a)] != Take(zs, n)[Rank(xs, before, a)];
    } else {
      forall ys, zs | SortOf(ys, xs, before) && SortOf(zs, xs, before) ensures Take(ys, n) == Take(zs, n) {
        UnambiguousCut(xs, before, n, ys, zs);
      }
    }
  }

  lemma TiedRanks<T(!new)>(xs: seq<T>, before: (T, T) -> bool, a: T, b: T)
    requires StrictOrder(before, xs) && a in xs && b in xs && Tied(before, a, b)
    ensures Rank(xs, before, a) == Rank(xs, before, b)
  {
    FilterAgrees(xs, (y: T) => before(y, a), (y: T) => before(y, b));
  }
}
