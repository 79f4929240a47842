/** A stable sort by any order, kept free of what is sorted. */
module Sorting {

  function Insert<T>(sorted: seq<T>, x: T, before: (T, T) -> bool): seq<T> {
    if |sorted| == 0 || !before(x, sorted[|sorted| - 1]) then sorted + [x]
    else Insert(sorted[..|sorted| - 1], x, before) + [sorted[|sorted| - 1]]
  }

  function Sort<T>(items: seq<T>, before: (T, T) -> bool): seq<T> {
    if |items| == 0 then []
    else Insert(Sort(items[..|items| - 1], before), items[|items| - 1], before)
  }

  /** Nothing comes before what precedes it. */
  ghost predicate Ranked<T>(items: seq<T>, before: (T, T) -> bool) {
    forall i, j | 0 <= i < j < |items| :: !before(items[j], items[i])
  }

  /** On these items, being no better is transitive and nothing is better than what is better than it. */
  ghost predicate Orders<T(!new)>(before: (T, T) -> bool, items: multiset<T>) {
    && (forall a, b | a in items && b in items && before(a, b) :: !before(b, a))
    && (forall a, b, c | a in items && b in items && c in items && !before(b, a) && !before(c, b) :: !before(c, a))
  }

  lemma {:induction false} InsertAdds<T>(sorted: seq<T>, x: T, before: (T, T) -> bool)
    ensures multiset(Insert(sorted, x, before)) == multiset(sorted) + multiset{x}
  {
    if |sorted| > 0 && before(x, sorted[|sorted| - 1]) {
      InsertAdds(sorted[..|sorted| - 1], x, before);
      assert sorted == sorted[..|sorted| - 1] + [sorted[|sorted| - 1]];
    }
  }

  lemma AppendRanks<T>(items: seq<T>, x: T, before: (T, T) -> bool)
    requires Ranked(items, before) && forall p | p in items :: !before(x, p)
    ensures Ranked(items + [x], before)
  {
    forall i | 0 <= i < |items| ensures !before(x, items[i]) {
      assert items[i] in items;
    }
  }

  lemma {:induction false} InsertRanks<T(!new)>(sorted: seq<T>, x: T, before: (T, T) -> bool)
    requires Ranked(sorted, before) && Orders(before, multiset(sorted) + multiset{x})
    ensures Ranked(Insert(sorted, x, before), before)
  {
    if |sorted| == 0 || !before(x, sorted[|sorted| - 1]) {
      forall p | p in sorted ensures !before(x, p) {
        assert p in multiset(sorted);
        NoneBeforeLast(sorted, p, before);
        assert |sorted| > 0 && sorted[|sorted| - 1] in multiset(sorted);
      }
      AppendRanks(sorted, x, before);
    } else {
      var rest, last := sorted[..|sorted| - 1], sorted[|sorted| - 1];
      assert sorted == rest + [last];
      InsertRanks(rest, x, before);
      InsertAdds(rest, x, before);
      forall p | p in Insert(rest, x, before) ensures !before(last, p) {
        assert p in multiset(Insert(rest, x, before));
        assert p in rest || p == x;
        assert last in multiset(sorted);
        NoneBeforeLast(sorted, if p in rest then p else last, before);
      }
      AppendRanks(Insert(rest, x, before), last, before);
    }
  }

  lemma NoneBeforeLast<T>(sorted: seq<T>, p: T, before: (T, T) -> bool)
    requires Ranked(sorted, before) && p in sorted
    ensures p == sorted[|sorted| - 1] || !before(sorted[|sorted| - 1], p)
  {
    var i :| 0 <= i < |sorted| && sorted[i] == p;
  }

  lemma OrdersFewer<T(!new)>(before: (T, T) -> bool, items: multiset<T>, fewer: multiset<T>)
    requires Orders(before, items) && fewer <= items
    ensures Orders(before, fewer)
  {
    assert forall a | a in fewer :: a in items;
  }

  /** Sorting ranks the items and loses none. */
  lemma {:induction false} SortRanks<T(!new)>(items: seq<T>, before: (T, T) -> bool)
    requires Orders(before, multiset(items))
    ensures Ranked(Sort(items, before), before)
    ensures multiset(Sort(items, before)) == multiset(items)
  {
    if |items| > 0 {
      var rest, last := items[..|items| - 1], items[|items| - 1];
      assert items == rest + [last];
      OrdersFewer(before, multiset(items), multiset(rest));
      SortRanks(rest, before);
      InsertRanks(Sort(rest, before), last, before);
      InsertAdds(Sort(rest, before), last, before);
    }
  }
}
