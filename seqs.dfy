/** Sequence helpers shared by the whole model: an optional value, lodash's
    `uniq` (stable dedupe keeping first occurrences), `filter`, `map` and a
    flattening concatenation, together with the facts the strategies rely on. */
module Seqs {

  datatype Option<+T> = None | Some(value: T)

  /** No value occurs twice in `s`. */
  predicate NoDup<T(==)>(s: seq<T>) {
    forall i, j :: 0 <= i < j < |s| ==> s[i] != s[j]
  }

  /** The position of the first occurrence of `x` in `s`. */
  function FirstIndex<T(==)>(s: seq<T>, x: T): (i: nat)
    requires x in s
    ensures i < |s| && s[i] == x && x !in s[..i]
  {
    if s[0] == x then 0
    else
      var k := FirstIndex(s[1..], x);
      assert s[..k + 1] == [s[0]] + s[1..][..k];
      k + 1
  }

  /** Every element of `u` occurs in `s`, and `u` lists them in the order of
      their first occurrences in `s`. */
  predicate InFirstOccurrenceOrder<T(==,!new)>(u: seq<T>, s: seq<T>) {
    && (forall x :: x in u ==> x in s)
    && (forall i, j :: 0 <= i < j < |u| ==> FirstIndex(s, u[i]) < FirstIndex(s, u[j]))
  }

  /** lodash `uniq`: keep the first occurrence of every value. */
  function Uniq<T(==,!new)>(s: seq<T>): (u: seq<T>)
    ensures NoDup(u)
    ensures forall x :: x in u <==> x in s
    ensures |u| <= |s|
  {
    if s == [] then []
    else
      var u := Uniq(s[..|s| - 1]);
      var last := s[|s| - 1];
      assert s == s[..|s| - 1] + [last];
      if last in u then u else u + [last]
  }

  /** `Array.prototype.filter`. */
  function Filter<T>(s: seq<T>, p: T -> bool): (r: seq<T>)
    ensures |r| <= |s|
  {
    if s == [] then []
    else
      var last := s[|s| - 1];
      Filter(s[..|s| - 1], p) + if p(last) then [last] else []
  }

  /** The filtered list holds exactly the elements that pass. */
  lemma {:induction false} FilterMember<T>(s: seq<T>, p: T -> bool)
    ensures forall x :: x in Filter(s, p) <==> x in s && p(x)
  {
    if s != [] {
      FilterMember(s[..|s| - 1], p);
      assert s == s[..|s| - 1] + [s[|s| - 1]];
    }
  }

  /** Filtering one more element appends it when it passes. */
  lemma FilterSnoc<T(!new)>(s: seq<T>, x: T, p: T -> bool)
    ensures Filter(s + [x], p) == Filter(s, p) + if p(x) then [x] else []
  {
    assert (s + [x])[..|s|] == s;
  }

  /** Filtering a prefix one element longer. */
  lemma FilterPrefixStep<T(!new)>(s: seq<T>, i: nat, p: T -> bool)
    requires i < |s|
    ensures Filter(s[..i + 1], p) == Filter(s[..i], p) + if p(s[i]) then [s[i]] else []
  {
    assert s[..i + 1] == s[..i] + [s[i]];
    FilterSnoc(s[..i], s[i], p);
  }

  /** Filtering keeps the length exactly when every element passes. */
  lemma {:induction false} FilterKeepsAll<T(!new)>(s: seq<T>, p: T -> bool)
    ensures |Filter(s, p)| == |s| <==> forall i :: 0 <= i < |s| ==> p(s[i])
  {
    if s != [] {
      var init := s[..|s| - 1];
      FilterKeepsAll(init, p);
      if forall i :: 0 <= i < |s| ==> p(s[i]) {
        assert forall i :: 0 <= i < |init| ==> p(init[i]);
      } else if forall i :: 0 <= i < |init| ==> p(init[i]) {
        assert !p(s[|s| - 1]);
      } else {
        assert |Filter(init, p)| < |init|;
      }
    }
  }

  /** `Array.prototype.findIndex`: the first position whose element passes,
      or -1. */
  function FindIndex<T>(s: seq<T>, p: T -> bool): (i: int)
    ensures -1 <= i < |s|
    ensures 0 <= i ==> p(s[i])
  {
    if s == [] then -1
    else if p(s[0]) then 0
    else
      var k := FindIndex(s[1..], p);
      if k < 0 then -1 else k + 1
  }

  /** No element before the one found passes, and when none is found none
      passes at all. */
  lemma {:induction false} FindIndexSpec<T>(s: seq<T>, p: T -> bool)
    ensures var i := FindIndex(s, p);
      forall j :: 0 <= j < |s| && (i < 0 || j < i) ==> !p(s[j])
  {
    if s != [] && !p(s[0]) {
      FindIndexSpec(s[1..], p);
      var i := FindIndex(s, p);
      forall j | 0 <= j < |s| && (i < 0 || j < i) ensures !p(s[j]) {
        if j > 0 {
          assert s[j] == s[1..][j - 1];
        }
      }
    }
  }

  /** `Array.prototype.map`. */
  function Map<T, U>(s: seq<T>, f: T -> U): (r: seq<U>)
    ensures |r| == |s|
  {
    if s == [] then [] else Map(s[..|s| - 1], f) + [f(s[|s| - 1])]
  }

  /** Mapping one more element appends its image. */
  lemma MapSnoc<T, U>(s: seq<T>, x: T, f: T -> U)
    ensures Map(s + [x], f) == Map(s, f) + [f(x)]
  {
    assert (s + [x])[..|s|] == s;
  }

  /** The `i`th element of the mapped sequence is `f` of the `i`th element. */
  lemma {:induction false} MapAt<T, U>(s: seq<T>, f: T -> U, i: nat)
    requires i < |s|
    ensures Map(s, f)[i] == f(s[i])
    decreases |s|
  {
    if i < |s| - 1 {
      MapAt(s[..|s| - 1], f, i);
    }
  }

  /** The elements of the mapped sequence are the images of the elements. */
  lemma MapMember<T, U>(s: seq<T>, f: T -> U)
    ensures forall y :: y in Map(s, f) <==> exists i :: 0 <= i < |s| && y == f(s[i])
  {
    forall i | 0 <= i < |s| {
      MapAt(s, f, i);
    }
  }

  /** The test `y !== x`. */
  function Except<T(==)>(x: T): T -> bool {
    y => y != x
  }

  /** The test "not already in `xs`". */
  function NotIn<T(==)>(xs: seq<T>): T -> bool {
    y => y !in xs
  }

  /** Concatenation of a list of lists, in order. */
  function Flatten<T>(ss: seq<seq<T>>): seq<T> {
    if ss == [] then [] else Flatten(ss[..|ss| - 1]) + ss[|ss| - 1]
  }

  /** `Flatten(ss[k..])`, read from the front: what a loop over `ss` has not
      reached yet. */
  function FlattenFrom<T>(ss: seq<seq<T>>, k: nat): seq<T>
    requires k <= |ss|
    decreases |ss| - k
  {
    if k == |ss| then [] else ss[k] + FlattenFrom(ss, k + 1)
  }

  lemma {:induction false} FlattenFromSplit<T>(ss: seq<seq<T>>, k: nat)
    requires k <= |ss|
    ensures Flatten(ss[..k]) + FlattenFrom(ss, k) == Flatten(ss)
    decreases |ss| - k
  {
    if k == |ss| {
      assert ss[..k] == ss;
    } else {
      FlattenFromSplit(ss, k + 1);
      assert ss[..k + 1][..k] == ss[..k];
    }
  }

  /** Moving the next list from the unread rest to the pending batch keeps
      the concatenation. */
  lemma FlattenPush<T>(acc: seq<T>, pending: seq<seq<T>>, ss: seq<seq<T>>, k: nat)
    requires k < |ss|
    ensures acc + Flatten(pending) + FlattenFrom(ss, k) == acc + Flatten(pending + [ss[k]]) + FlattenFrom(ss, k + 1)
  {
    assert (pending + [ss[k]])[..|pending|] == pending;
  }

  /** Pushing the next element of `xs` onto the pending batch, seen through
      `f`. */
  lemma MapFlattenPush<S, T>(acc: seq<T>, pending: seq<S>, xs: seq<S>, k: nat, f: S -> seq<T>)
    requires k < |xs|
    ensures acc + Flatten(Map(pending, f)) + FlattenFrom(Map(xs, f), k)
      == acc + Flatten(Map(pending + [xs[k]], f)) + FlattenFrom(Map(xs, f), k + 1)
  {
    MapAt(xs, f, k);
    assert (pending + [xs[k]])[..|pending|] == pending;
    assert Map(pending + [xs[k]], f) == Map(pending, f) + [f(xs[k])];
    FlattenPush(acc, Map(pending, f), Map(xs, f), k);
  }

  /** Flattening one more list appends it. */
  lemma FlattenSnoc<T>(ss: seq<seq<T>>, s: seq<T>)
    ensures Flatten(ss + [s]) == Flatten(ss) + s
  {
    assert (ss + [s])[..|ss|] == ss;
  }

  /** The first element, if any: what lodash `uniqBy` keeps when every element
      has the same key. */
  function FirstOnly<T>(s: seq<T>): (r: seq<T>)
    ensures |r| <= 1
    ensures |s| > 0 <==> |r| == 1
    ensures |r| == 1 ==> r[0] == s[0]
  {
    if s == [] then [] else [s[0]]
  }

  lemma FlattenAppend<T>(a: seq<seq<T>>, b: seq<seq<T>>)
    ensures Flatten(a + b) == Flatten(a) + Flatten(b)
    decreases |b|
  {
    if b == [] {
      assert a + b == a;
    } else {
      assert a + b == (a + b[..|b| - 1]) + [b[|b| - 1]];
      FlattenAppend(a, b[..|b| - 1]);
    }
  }

  lemma {:induction false} FilterAppend<T(!new)>(a: seq<T>, b: seq<T>, p: T -> bool)
    ensures Filter(a + b, p) == Filter(a, p) + Filter(b, p)
    decreases |b|
  {
    if b == [] {
      assert a + b == a;
    } else {
      assert (a + b)[..|a + b| - 1] == a + b[..|b| - 1];
      FilterAppend(a, b[..|b| - 1], p);
    }
  }

  /** Removing elements keeps the ones that remain distinct. */
  lemma {:induction false} FilterNoDup<T(!new)>(s: seq<T>, p: T -> bool)
    requires NoDup(s)
    ensures NoDup(Filter(s, p))
  {
    if s != [] {
      var init := s[..|s| - 1];
      assert NoDup(init);
      FilterNoDup(init, p);
      FilterMember(init, p);
      assert s[|s| - 1] !in init;
    }
  }

  /** Deduplicating a list that has no duplicates changes nothing. */
  lemma {:induction false} UniqOfNoDup<T(!new)>(s: seq<T>)
    requires NoDup(s)
    ensures Uniq(s) == s
  {
    if s != [] {
      var init := s[..|s| - 1];
      assert NoDup(init);
      UniqOfNoDup(init);
      assert s[|s| - 1] !in init;
      assert s == init + [s[|s| - 1]];
    }
  }

  /** The first occurrence is the only position holding `x` with no `x` before it. */
  lemma {:induction false} FirstIndexUnique<T>(s: seq<T>, x: T, i: nat)
    requires i < |s| && s[i] == x && x !in s[..i]
    ensures FirstIndex(s, x) == i
  {
    if s[0] != x {
      assert s[1..][..i - 1] == s[..i][1..];
      FirstIndexUnique(s[1..], x, i - 1);
    }
  }

  lemma FirstIndexOfPrefix<T>(s: seq<T>, n: nat, x: T)
    requires n <= |s| && x in s[..n]
    ensures x in s && FirstIndex(s, x) == FirstIndex(s[..n], x)
  {
    var i := FirstIndex(s[..n], x);
    assert s[..n][..i] == s[..i];
    FirstIndexUnique(s, x, i);
  }

  /** `uniq` keeps values in the order of their first occurrences. */
  lemma {:induction false} UniqOrder<T(!new)>(s: seq<T>)
    ensures InFirstOccurrenceOrder(Uniq(s), s)
  {
    if s != [] {
      var init := s[..|s| - 1];
      var last := s[|s| - 1];
      UniqOrder(init);
      var u := Uniq(init);
      assert s == init + [last];
      forall x | x in u ensures FirstIndex(s, x) == FirstIndex(init, x) {
        FirstIndexOfPrefix(s, |s| - 1, x);
      }
      if last !in u {
        assert last !in init;
        assert FirstIndex(s, last) == |s| - 1;
        var w := u + [last];
        forall i, j | 0 <= i < j < |w| ensures FirstIndex(s, w[i]) < FirstIndex(s, w[j]) {
          if j < |u| {
            assert w[i] == u[i] && w[j] == u[j];
          } else {
            assert w[i] == u[i] && u[i] in init;
          }
        }
      }
    }
  }

  /** Appending values to the input only appends to `uniq`'s result. */
  lemma {:induction false} UniqPrefix<T(!new)>(a: seq<T>, b: seq<T>)
    ensures Uniq(a) <= Uniq(a + b)
    decreases |b|
  {
    if b == [] {
      assert a + b == a;
    } else {
      var init := b[..|b| - 1];
      UniqPrefix(a, init);
      assert (a + b)[..|a + b| - 1] == a + init;
    }
  }

  /** Filtering keeps the order of what remains. */
  lemma {:induction false} FilterOrder<T(!new)>(u: seq<T>, s: seq<T>, p: T -> bool)
    requires InFirstOccurrenceOrder(u, s)
    ensures InFirstOccurrenceOrder(Filter(u, p), s)
  {
    if u != [] {
      var init := u[..|u| - 1];
      var last := u[|u| - 1];
      assert u == init + [last];
      assert InFirstOccurrenceOrder(init, s) by {
        forall i, j | 0 <= i < j < |init| ensures FirstIndex(s, init[i]) < FirstIndex(s, init[j]) {
          assert init[i] == u[i] && init[j] == u[j];
        }
      }
      FilterOrder(init, s, p);
      FilterMember(init, p);
      var f := Filter(init, p);
      if p(last) {
        var w := f + [last];
        forall i, j | 0 <= i < j < |w| ensures FirstIndex(s, w[i]) < FirstIndex(s, w[j]) {
          if j == |f| {
            assert w[i] in init;
            var k :| 0 <= k < |init| && init[k] == w[i];
            assert u[k] == w[i] && u[|u| - 1] == last;
          } else {
            assert w[i] == f[i] && w[j] == f[j];
          }
        }
      }
    }
  }

  /** Appending distinct values that are all new appends them to `uniq`'s
      result unchanged. */
  lemma {:induction false} UniqAppendFresh<T(!new)>(s: seq<T>, t: seq<T>)
    requires NoDup(t)
    requires forall x :: x in t ==> x !in s
    ensures Uniq(s + t) == Uniq(s) + t
    decreases |t|
  {
    if t == [] {
      assert s + t == s;
    } else {
      var init := t[..|t| - 1];
      var x := t[|t| - 1];
      assert NoDup(init);
      UniqAppendFresh(s, init);
      assert (s + t)[..|s + t| - 1] == s + init;
      assert x !in init;
      assert x !in Uniq(s + init);
      assert Uniq(s) + init + [x] == Uniq(s) + t;
    }
  }

  /** Some element of `u` has key `k`. */
  predicate KeyIn<T, K(==)>(u: seq<T>, k: K, key: T -> K) {
    exists i | 0 <= i < |u| :: key(u[i]) == k
  }

  /** lodash `uniqBy`: keep the first element for every key. */
  function UniqBy<T, K(==)>(s: seq<T>, key: T -> K): (u: seq<T>)
    ensures |u| <= |s|
  {
    if s == [] then []
    else
      var u := UniqBy(s[..|s| - 1], key);
      var last := s[|s| - 1];
      if KeyIn(u, key(last), key) then u else u + [last]
  }

  /** When every element has the same key, `uniqBy` keeps the first element
      alone. */
  lemma {:induction false} UniqByConstantKey<T, K>(s: seq<T>, key: T -> K, k: K)
    requires forall x :: key(x) == k
    ensures UniqBy(s, key) == FirstOnly(s)
  {
    if s != [] {
      var init := s[..|s| - 1];
      UniqByConstantKey(init, key, k);
      if init != [] {
        assert key(UniqBy(init, key)[0]) == key(s[|s| - 1]);
        assert init[0] == s[0];
      }
    }
  }

  lemma {:induction false} FilterNone<T(!new)>(s: seq<T>, p: T -> bool)
    requires forall j :: 0 <= j < |s| ==> !p(s[j])
    ensures Filter(s, p) == []
  {
    if s != [] {
      FilterNone(s[..|s| - 1], p);
    }
  }

  /** The first element of a filtered list is the first element that passes. */
  lemma {:induction false} FilterFirst<T(!new)>(s: seq<T>, p: T -> bool, i: nat)
    requires i < |s| && p(s[i])
    requires forall j :: 0 <= j < i ==> !p(s[j])
    ensures Filter(s, p) != [] && Filter(s, p)[0] == s[i]
  {
    var init := s[..|s| - 1];
    if i < |s| - 1 {
      FilterFirst(init, p, i);
    } else {
      FilterNone(init, p);
    }
  }
}
