/** `collections.Counter(counts).most_common(n)` as generate_metrics.py uses
    it: the items sorted by count, largest first, ties kept in the order the
    dict produced them, and the first `n` of those. */
module Counter {

  /** A (key, count) pair of the counts dict. */
  type Item = (string, nat)

  function Min(a: int, b: int): int { if a < b then a else b }

  /** Counts never increase along the sequence. */
  predicate Descending(xs: seq<Item>) {
    forall i, j :: 0 <= i < j < |xs| ==> xs[i].1 >= xs[j].1
  }

  /** The items whose count is `c`, in order. */
  function WithCount(xs: seq<Item>, c: nat): (r: seq<Item>)
    ensures |r| <= |xs|
    ensures forall i :: 0 <= i < |r| ==> r[i].1 == c
  {
    if xs == [] then []
    else WithCount(xs[..|xs| - 1], c) + (if xs[|xs| - 1].1 == c then [xs[|xs| - 1]] else [])
  }

  lemma {:induction false} WithCountAppend(xs: seq<Item>, ys: seq<Item>, c: nat)
    ensures WithCount(xs + ys, c) == WithCount(xs, c) + WithCount(ys, c)
    decreases |ys|
  {
    if ys == [] {
      assert xs + ys == xs;
    } else {
      var init, last := ys[..|ys| - 1], ys[|ys| - 1];
      assert (xs + ys)[..|xs + ys| - 1] == xs + init;
      assert (xs + ys)[|xs + ys| - 1] == last;
      WithCountAppend(xs, init, c);
    }
  }

  lemma WithCountSingle(x: Item, c: nat)
    ensures WithCount([x], c) == if x.1 == c then [x] else []
  {
    var one: seq<Item> := [x];
    assert one[..0] == [];
  }

  /** Places `x` behind every item whose count is at least its own. */
  function Insert(sorted: seq<Item>, x: Item): (r: seq<Item>)
    ensures multiset(r) == multiset(sorted) + multiset{x}
    ensures |r| == |sorted| + 1
  {
    if sorted == [] || sorted[|sorted| - 1].1 >= x.1 then sorted + [x]
    else
      var init, last := sorted[..|sorted| - 1], sorted[|sorted| - 1];
      assert sorted == init + [last];
      Insert(init, x) + [last]
  }

  /** Insertion keeps the order descending. */
  lemma {:induction false} InsertDescending(sorted: seq<Item>, x: Item)
    requires Descending(sorted)
    ensures Descending(Insert(sorted, x))
    decreases |sorted|
  {
    if sorted != [] && sorted[|sorted| - 1].1 < x.1 {
      var init, last := sorted[..|sorted| - 1], sorted[|sorted| - 1];
      assert sorted == init + [last];
      InsertDescending(init, x);
      InsertAtLeast(init, x, last.1);
      DescendingSnoc(Insert(init, x), last);
    }
  }

  /** An item no larger than every item of a descending list may follow it. */
  lemma DescendingSnoc(xs: seq<Item>, y: Item)
    requires Descending(xs)
    requires forall i :: 0 <= i < |xs| ==> xs[i].1 >= y.1
    ensures Descending(xs + [y])
  {
  }

  /** When every item and `x` have count at least `b`, so does every item of
      the insertion. */
  lemma InsertAtLeast(sorted: seq<Item>, x: Item, b: nat)
    requires forall i :: 0 <= i < |sorted| ==> sorted[i].1 >= b
    requires x.1 >= b
    ensures forall i :: 0 <= i < |Insert(sorted, x)| ==> Insert(sorted, x)[i].1 >= b
  {
    var r := Insert(sorted, x);
    forall i | 0 <= i < |r|
      ensures r[i].1 >= b
    {
      assert r[i] in multiset(r);
      if r[i] != x {
        assert r[i] in multiset(sorted);
      }
    }
  }

  /** Insertion puts `x` last among the items with its count and moves no
      other item past one of equal count. */
  lemma {:induction false} InsertWithCount(sorted: seq<Item>, x: Item, c: nat)
    ensures WithCount(Insert(sorted, x), c) == WithCount(sorted, c) + (if x.1 == c then [x] else [])
    decreases |sorted|
  {
    if sorted == [] || sorted[|sorted| - 1].1 >= x.1 {
      WithCountSnoc(sorted, x, c);
    } else {
      var init, last := sorted[..|sorted| - 1], sorted[|sorted| - 1];
      assert sorted == init + [last];
      InsertWithCount(init, x, c);
      WithCountSnoc(Insert(init, x), last, c);
      WithCountSnoc(init, last, c);
      var w := WithCount(init, c);
      if x.1 == c {
        assert WithCount(Insert(sorted, x), c) == w + [x];
      } else {
        assert WithCount(Insert(sorted, x), c) == WithCount(sorted, c);
      }
    }
  }

  /** One more item at the end adds it to its own count's list. */
  lemma WithCountSnoc(xs: seq<Item>, y: Item, c: nat)
    ensures WithCount(xs + [y], c) == WithCount(xs, c) + (if y.1 == c then [y] else [])
  {
    assert (xs + [y])[..|xs|] == xs;
  }

  /** `sorted(items, key=count, reverse=True)`: Python's sort is stable. */
  function SortDescending(xs: seq<Item>): (r: seq<Item>)
    ensures multiset(r) == multiset(xs)
    ensures |r| == |xs|
  {
    if xs == [] then []
    else
      var init, last := xs[..|xs| - 1], xs[|xs| - 1];
      assert xs == init + [last];
      Insert(SortDescending(init), last)
  }

  /** The sort is descending, and for every count the items with that count
      keep their input order: the stable sort. */
  lemma {:induction false} SortDescendingProperties(xs: seq<Item>)
    ensures Descending(SortDescending(xs))
    ensures forall c :: WithCount(SortDescending(xs), c) == WithCount(xs, c)
    decreases |xs|
  {
    if xs != [] {
      var init, last := xs[..|xs| - 1], xs[|xs| - 1];
      assert xs == init + [last];
      SortDescendingProperties(init);
      InsertDescending(SortDescending(init), last);
      forall c ensures WithCount(SortDescending(xs), c) == WithCount(xs, c) {
        InsertWithCount(SortDescending(init), last, c);
      }
    }
  }

  /** `Counter(counts).most_common(n)`. */
  function MostCommon(xs: seq<Item>, n: nat): seq<Item> {
    SortDescending(xs)[..Min(n, |xs|)]
  }

  /** `most_common(n)` returns `min(n, len)` items drawn from the input,
      largest counts first. */
  lemma MostCommonShape(xs: seq<Item>, n: nat)
    ensures |MostCommon(xs, n)| == Min(n, |xs|)
    ensures Descending(MostCommon(xs, n))
    ensures multiset(MostCommon(xs, n)) <= multiset(xs)
  {
    var s := SortDescending(xs);
    var m := Min(n, |xs|);
    SortDescendingProperties(xs);
    assert s == s[..m] + s[m..];
    assert multiset(s) == multiset(s[..m]) + multiset(s[m..]);
  }

  /** No item left out has a larger count than an item kept. */
  lemma MostCommonDropsSmaller(xs: seq<Item>, n: nat)
    ensures forall x, y :: x in multiset(xs) - multiset(MostCommon(xs, n)) && y in MostCommon(xs, n) ==> y.1 >= x.1
  {
    var s := SortDescending(xs);
    var m := Min(n, |xs|);
    var r := s[..m];
    SortDescendingProperties(xs);
    forall x, y | x in multiset(xs) - multiset(r) && y in r
      ensures y.1 >= x.1
    {
      DroppedInTail(s, m, x);
      var i :| m <= i < |s| && s[i] == x;
      var k :| 0 <= k < |r| && r[k] == y;
      assert s[k] == y;
    }
  }

  /** What a prefix does not account for lies in the rest of the sequence. */
  lemma DroppedInTail(s: seq<Item>, m: nat, x: Item)
    requires m <= |s| && x in multiset(s) - multiset(s[..m])
    ensures exists i :: m <= i < |s| && s[i] == x
  {
    assert s == s[..m] + s[m..];
    assert multiset(s) == multiset(s[..m]) + multiset(s[m..]);
    assert x in s[m..];
    var j :| 0 <= j < |s[m..]| && s[m..][j] == x;
    assert s[m + j] == x;
  }

  /** Among items of equal count, the kept ones are the first encountered,
      in input order. */
  lemma MostCommonTiesInOrder(xs: seq<Item>, n: nat, c: nat)
    ensures WithCount(MostCommon(xs, n), c) <= WithCount(xs, c)
  {
    var s := SortDescending(xs);
    var m := Min(n, |xs|);
    SortDescendingProperties(xs);
    assert s == s[..m] + s[m..];
    WithCountAppend(s[..m], s[m..], c);
  }
}
