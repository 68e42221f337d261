/** The stable sort the library provides, specified and proved: sorted, a
    permutation, stable, and the only list with the first two properties when the
    order tells every two elements apart. */
module Sorting {

  ghost predicate Total<T(!new)>(le: (T, T) -> bool) {
    forall a, b :: le(a, b) || le(b, a)
  }

  ghost predicate Transitive<T(!new)>(le: (T, T) -> bool) {
    forall a, b, c :: le(a, b) && le(b, c) ==> le(a, c)
  }

  ghost predicate Sorted<T>(le: (T, T) -> bool, xs: seq<T>) {
    forall i, j :: 0 <= i < j < |xs| ==> le(xs[i], xs[j])
  }

  /** No two different elements of the list are tied. */
  ghost predicate Antisymmetric<T>(le: (T, T) -> bool, xs: seq<T>) {
    forall a, b :: a in xs && b in xs && le(a, b) && le(b, a) ==> a == b
  }

  lemma AntisymmetricSame<T(!new)>(le: (T, T) -> bool, xs: seq<T>, ys: seq<T>)
    requires Antisymmetric(le, xs) && multiset(xs) == multiset(ys)
    ensures Antisymmetric(le, ys)
  {
    SameElements(xs, ys);
  }

  /** `x` before the first element it may precede. */
  function Insert<T>(le: (T, T) -> bool, x: T, xs: seq<T>): seq<T> {
    if xs == [] || le(x, xs[0]) then [x] + xs else [xs[0]] + Insert(le, x, xs[1..])
  }

  function Sort<T>(le: (T, T) -> bool, xs: seq<T>): seq<T> {
    if xs == [] then [] else Insert(le, xs[0], Sort(le, xs[1..]))
  }

  lemma {:induction false} InsertPermutes<T>(le: (T, T) -> bool, x: T, xs: seq<T>)
    ensures multiset(Insert(le, x, xs)) == multiset{x} + multiset(xs)
  {
    if xs != [] {
      assert xs == [xs[0]] + xs[1..];
      if !le(x, xs[0]) {
        InsertPermutes(le, x, xs[1..]);
      }
    }
  }

  lemma {:induction false} SortPermutes<T>(le: (T, T) -> bool, xs: seq<T>)
    ensures multiset(Sort(le, xs)) == multiset(xs)
  {
    if xs != [] {
      SortPermutes(le, xs[1..]);
      InsertPermutes(le, xs[0], Sort(le, xs[1..]));
      assert xs == [xs[0]] + xs[1..];
    }
  }

  lemma SameElements<T(!new)>(xs: seq<T>, ys: seq<T>)
    requires multiset(xs) == multiset(ys)
    ensures |xs| == |ys| && forall x :: x in xs <==> x in ys
  {
    assert |multiset(xs)| == |xs| && |multiset(ys)| == |ys|;
    forall x ensures x in xs <==> x in ys {
      assert x in xs <==> x in multiset(xs);
      assert x in ys <==> x in multiset(ys);
    }
  }

  lemma {:induction false} InsertSorted<T(!new)>(le: (T, T) -> bool, x: T, xs: seq<T>)
    requires Total(le) && Transitive(le) && Sorted(le, xs)
    ensures Sorted(le, Insert(le, x, xs))
  {
    if xs != [] && !le(x, xs[0]) {
      var rest := xs[1..];
      InsertSorted(le, x, rest);
      InsertPermutes(le, x, rest);
      var r := Insert(le, x, rest);
      SameElements(r, [x] + rest);
      forall y | y in r ensures le(xs[0], y) {
        assert y in [x] + rest;
        if y != x {
          var k :| 0 <= k < |rest| && rest[k] == y;
          assert xs[k + 1] == y;
        }
      }
      assert forall k :: 0 <= k < |r| ==> r[k] in r;
    }
  }

  lemma {:induction false} SortSorted<T(!new)>(le: (T, T) -> bool, xs: seq<T>)
    requires Total(le) && Transitive(le)
    ensures Sorted(le, Sort(le, xs))
  {
    if xs != [] {
      SortSorted(le, xs[1..]);
      InsertSorted(le, xs[0], Sort(le, xs[1..]));
    }
  }

  /** Two sorted arrangements of the same elements agree when no two are tied. */
  lemma {:induction false} SortedUnique<T(!new)>(le: (T, T) -> bool, xs: seq<T>, ys: seq<T>)
    requires Sorted(le, xs) && Sorted(le, ys) && multiset(xs) == multiset(ys)
    requires Antisymmetric(le, xs)
    ensures xs == ys
  {
    SameElements(xs, ys);
    if xs != [] {
      TailsAgree(le, xs, ys);
      SortedUnique(le, xs[1..], ys[1..]);
      assert xs == [xs[0]] + xs[1..] && ys == [ys[0]] + ys[1..];
    }
  }

  lemma TailsAgree<T(!new)>(le: (T, T) -> bool, xs: seq<T>, ys: seq<T>)
    requires xs != [] && Sorted(le, xs) && Sorted(le, ys) && multiset(xs) == multiset(ys)
    requires Antisymmetric(le, xs)
    ensures ys != [] && xs[0] == ys[0] && multiset(xs[1..]) == multiset(ys[1..])
    ensures Sorted(le, xs[1..]) && Sorted(le, ys[1..]) && Antisymmetric(le, xs[1..])
  {
    SameElements(xs, ys);
    SortedHeads(le, xs, ys);
    WithoutHead(xs);
    WithoutHead(ys);
    SortedTail(le, xs);
    SortedTail(le, ys);
    AntisymmetricTail(le, xs);
  }

  lemma AntisymmetricTail<T>(le: (T, T) -> bool, xs: seq<T>)
    requires xs != [] && Antisymmetric(le, xs)
    ensures Antisymmetric(le, xs[1..])
  {
    assert forall a :: a in xs[1..] ==> a in xs;
  }

  lemma SortedTail<T>(le: (T, T) -> bool, xs: seq<T>)
    requires xs != [] && Sorted(le, xs)
    ensures Sorted(le, xs[1..])
  {
    assert forall i :: 0 <= i < |xs[1..]| ==> xs[1..][i] == xs[i + 1];
  }

  lemma WithoutHead<T>(xs: seq<T>)
    requires xs != []
    ensures multiset(xs[1..]) == multiset(xs) - multiset{xs[0]}
  {
    assert xs == [xs[0]] + xs[1..];
  }

  lemma SortedHeads<T(!new)>(le: (T, T) -> bool, xs: seq<T>, ys: seq<T>)
    requires xs != [] && ys != [] && Sorted(le, xs) && Sorted(le, ys)
    requires forall x :: x in xs <==> x in ys
    requires Antisymmetric(le, xs)
    ensures xs[0] == ys[0]
  {
    assert xs[0] in ys && ys[0] in xs;
    var i :| 0 <= i < |ys| && ys[i] == xs[0];
    var j :| 0 <= j < |xs| && xs[j] == ys[0];
    if i != 0 && j != 0 {
      assert le(ys[0], ys[i]) && le(xs[0], xs[j]);
    }
  }

  // ---- keeping part of a list ------------------------------------------------

  lemma Associative<T>(a: seq<T>, b: seq<T>, c: seq<T>)
    ensures a + (b + c) == a + b + c
  {}

  function Keep<T>(p: T -> bool, xs: seq<T>): seq<T> {
    if xs == [] then [] else (if p(xs[0]) then [xs[0]] else []) + Keep(p, xs[1..])
  }

  lemma {:induction false} KeepMembers<T(!new)>(p: T -> bool, xs: seq<T>)
    ensures forall x :: x in Keep(p, xs) <==> x in xs && p(x)
  {
    if xs != [] {
      KeepMembers(p, xs[1..]);
      assert xs == [xs[0]] + xs[1..];
    }
  }

  lemma {:induction false} KeepNone<T>(p: T -> bool, xs: seq<T>)
    requires forall i :: 0 <= i < |xs| ==> !p(xs[i])
    ensures Keep(p, xs) == []
  {
    if xs != [] {
      KeepNone(p, xs[1..]);
    }
  }

  lemma {:induction false} KeepAll<T>(p: T -> bool, xs: seq<T>)
    requires forall i :: 0 <= i < |xs| ==> p(xs[i])
    ensures Keep(p, xs) == xs
  {
    if xs != [] {
      KeepAll(p, xs[1..]);
    }
  }

  lemma KeepCons<T>(p: T -> bool, x: T, xs: seq<T>)
    ensures Keep(p, [x] + xs) == (if p(x) then [x] else []) + Keep(p, xs)
  {
    assert ([x] + xs)[1..] == xs;
  }

  lemma KeepHead<T>(p: T -> bool, xs: seq<T>)
    requires xs != []
    ensures p(xs[0]) ==> Keep(p, xs) != [] && Keep(p, xs)[0] == xs[0] && Keep(p, xs)[1..] == Keep(p, xs[1..])
    ensures !p(xs[0]) ==> Keep(p, xs) == Keep(p, xs[1..])
  {}

  lemma {:induction false} KeepAppend<T>(p: T -> bool, xs: seq<T>, ys: seq<T>)
    ensures Keep(p, xs + ys) == Keep(p, xs) + Keep(p, ys)
  {
    if xs == [] {
      assert xs + ys == ys;
    } else {
      KeepAppend(p, xs[1..], ys);
      assert (xs + ys)[0] == xs[0] && (xs + ys)[1..] == xs[1..] + ys;
      var head := if p(xs[0]) then [xs[0]] else [];
      Associative(head, Keep(p, xs[1..]), Keep(p, ys));
    }
  }

  lemma {:induction false} KeepSorted<T(!new)>(le: (T, T) -> bool, p: T -> bool, xs: seq<T>)
    requires Sorted(le, xs)
    ensures Sorted(le, Keep(p, xs))
  {
    if xs != [] {
      var rest := Keep(p, xs[1..]);
      KeepSorted(le, p, xs[1..]);
      KeepMembers(p, xs[1..]);
      forall k | 0 <= k < |rest| ensures le(xs[0], rest[k]) {
        assert rest[k] in rest;
        var i :| 0 <= i < |xs[1..]| && xs[1..][i] == rest[k];
        assert xs[i + 1] == rest[k];
      }
    }
  }

  lemma {:induction false} KeepCounts<T>(p: T -> bool, xs: seq<T>, x: T)
    ensures multiset(Keep(p, xs))[x] == if p(x) then multiset(xs)[x] else 0
  {
    if xs != [] {
      KeepCounts(p, xs[1..], x);
      assert xs == [xs[0]] + xs[1..];
      assert multiset(xs)[x] == multiset([xs[0]])[x] + multiset(xs[1..])[x];
    }
  }

  /** Keeping part of two arrangements of the same elements. */
  lemma KeepPermutes<T(!new)>(p: T -> bool, xs: seq<T>, ys: seq<T>)
    requires multiset(xs) == multiset(ys)
    ensures multiset(Keep(p, xs)) == multiset(Keep(p, ys))
  {
    var r, s := multiset(Keep(p, xs)), multiset(Keep(p, ys));
    forall x ensures r[x] == s[x] {
      KeepCounts(p, xs, x);
      KeepCounts(p, ys, x);
    }
    assert r == s;
  }

  /** Sorting leaves elements that are tied with one another in their old order. */
  lemma {:induction false} SortStable<T(!new)>(le: (T, T) -> bool, p: T -> bool, xs: seq<T>)
    requires Total(le) && Transitive(le)
    requires forall a, b :: a in xs && b in xs && p(a) && p(b) ==> le(a, b)
    ensures Keep(p, Sort(le, xs)) == Keep(p, xs)
  {
    if xs != [] {
      var s := Sort(le, xs[1..]);
      SortStable(le, p, xs[1..]);
      SortSorted(le, xs[1..]);
      SortPermutes(le, xs[1..]);
      SameElements(s, xs[1..]);
      assert forall a :: a in xs[1..] ==> a in xs;
      InsertStable(le, p, xs[0], s);
    }
  }

  lemma {:induction false} InsertStable<T>(le: (T, T) -> bool, p: T -> bool, x: T, xs: seq<T>)
    requires forall a :: a in xs && p(a) && p(x) ==> le(x, a)
    ensures Keep(p, Insert(le, x, xs)) == Keep(p, [x]) + Keep(p, xs)
  {
    if xs == [] || le(x, xs[0]) {
      KeepAppend(p, [x], xs);
    } else {
      assert xs[0] in xs;
      var r := Insert(le, x, xs[1..]);
      InsertStable(le, p, x, xs[1..]);
      assert Insert(le, x, xs)[1..] == r;
      assert [x][1..] == [];
    }
  }

  /** Taking one occurrence of an element out of a list. */
  lemma TakeOut<T>(x: T, xs: seq<T>) returns (pre: seq<T>, post: seq<T>)
    requires x in xs
    ensures xs == pre + [x] + post && multiset(pre + post) == multiset(xs) - multiset{x}
  {
    var i :| 0 <= i < |xs| && xs[i] == x;
    pre, post := xs[..i], xs[i + 1..];
    assert xs == pre + [x] + post;
  }

  // ---- mapping a list --------------------------------------------------------

  function Map<A, B>(f: A -> B, xs: seq<A>): (r: seq<B>)
    ensures |r| == |xs| && forall i :: 0 <= i < |xs| ==> r[i] == f(xs[i])
  {
    if xs == [] then [] else [f(xs[0])] + Map(f, xs[1..])
  }

  lemma MapAppend<A, B>(f: A -> B, xs: seq<A>, ys: seq<A>)
    ensures Map(f, xs + ys) == Map(f, xs) + Map(f, ys)
  {}

  /** Mapping two arrangements of the same elements gives arrangements of the same results. */
  lemma {:induction false} MapPermutes<A(!new), B>(f: A -> B, xs: seq<A>, ys: seq<A>)
    requires multiset(xs) == multiset(ys)
    ensures multiset(Map(f, xs)) == multiset(Map(f, ys))
    decreases |xs|
  {
    SameElements(xs, ys);
    if xs != [] {
      assert xs[0] in ys;
      var pre, post := TakeOut(xs[0], ys);
      WithoutHead(xs);
      MapPermutes(f, xs[1..], pre + post);
      MapAppend(f, pre, post);
      MapAppend(f, pre + [xs[0]], post);
      MapAppend(f, pre, [xs[0]]);
      assert Map(f, xs) == [f(xs[0])] + Map(f, xs[1..]);
    }
  }

  lemma MapSorted<A, B>(le: (A, A) -> bool, le': (B, B) -> bool, f: A -> B, xs: seq<A>)
    requires Sorted(le, xs) && forall a, b :: a in xs && b in xs && le(a, b) ==> le'(f(a), f(b))
    ensures Sorted(le', Map(f, xs))
  {
    assert forall i :: 0 <= i < |xs| ==> xs[i] in xs;
  }

  // ---- lists without repeated names ------------------------------------------

  predicate DistinctBy<T>(name: T -> string, xs: seq<T>) {
    forall i, j :: 0 <= i < j < |xs| ==> name(xs[i]) != name(xs[j])
  }

  lemma {:induction false} DistinctPermutes<T(!new)>(name: T -> string, xs: seq<T>, ys: seq<T>)
    requires DistinctBy(name, xs) && multiset(xs) == multiset(ys)
    ensures DistinctBy(name, ys)
    decreases |xs|
  {
    SameElements(xs, ys);
    if xs != [] {
      var x, rest := xs[0], xs[1..];
      assert x in ys;
      var pre, post := TakeOut(x, ys);
      WithoutHead(xs);
      assert forall i :: 0 <= i < |rest| ==> rest[i] == xs[i + 1];
      DistinctPermutes(name, rest, pre + post);
      SameElements(rest, pre + post);
      forall k | 0 <= k < |pre + post| ensures name((pre + post)[k]) != name(x) {
        assert (pre + post)[k] in rest;
      }
      PutBack(name, pre, x, post);
    }
  }

  lemma PutBack<T>(name: T -> string, pre: seq<T>, x: T, post: seq<T>)
    requires DistinctBy(name, pre + post)
    requires forall k :: 0 <= k < |pre + post| ==> name((pre + post)[k]) != name(x)
    ensures DistinctBy(name, pre + [x] + post)
  {
    var ys, zs := pre + [x] + post, pre + post;
    forall i, j | 0 <= i < j < |ys| ensures name(ys[i]) != name(ys[j]) {
      var i' := if i <= |pre| then i else i - 1;
      var j' := if j <= |pre| then j else j - 1;
      assert i != |pre| ==> ys[i] == zs[i'];
      assert j != |pre| ==> ys[j] == zs[j'];
    }
  }

  lemma {:induction false} DistinctKeep<T(!new)>(name: T -> string, p: T -> bool, xs: seq<T>)
    requires DistinctBy(name, xs)
    ensures DistinctBy(name, Keep(p, xs))
  {
    if xs != [] {
      var rest := xs[1..];
      assert forall i :: 0 <= i < |rest| ==> rest[i] == xs[i + 1];
      DistinctKeep(name, p, rest);
      KeepMembers(p, rest);
      var kept := Keep(p, rest);
      forall k | 0 <= k < |kept| ensures name(kept[k]) != name(xs[0]) {
        assert kept[k] in rest;
      }
    }
  }

  // ---- strings, code point by code point --------------------------------------

  predicate TextLe(a: string, b: string) {
    a == [] || (b != [] && (a[0] < b[0] || (a[0] == b[0] && TextLe(a[1..], b[1..]))))
  }

  lemma {:induction false} TextTotal(a: string, b: string)
    ensures TextLe(a, b) || TextLe(b, a)
    ensures TextLe(a, b) && TextLe(b, a) ==> a == b
  {
    if a != [] && b != [] && a[0] == b[0] {
      TextTotal(a[1..], b[1..]);
      assert a == [a[0]] + a[1..] && b == [b[0]] + b[1..];
    }
  }

  lemma {:induction false} TextTransitive(a: string, b: string, c: string)
    requires TextLe(a, b) && TextLe(b, c)
    ensures TextLe(a, c)
  {
    if a != [] && a[0] == b[0] == c[0] {
      TextTransitive(a[1..], b[1..], c[1..]);
    }
  }
}
