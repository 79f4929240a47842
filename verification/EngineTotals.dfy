/** Sums over all users' positions, and how they change when one user's list changes. */
module EngineTotals {
  import opened EngineState
  import opened MapSums

  /** What a position contributes to a sum. */
  datatype Weight =
    | SideSize(market: nat, isLong: bool)
    | AccruedFunding(market: nat, longIndex: int, shortIndex: int)  // scaled by PRECISION
  {
    function Of(p: Position): int {
      match this
      case SideSize(m, isLong) => if p.marketId == m && p.isLong == isLong then p.size else 0
      case AccruedFunding(m, longIndex, shortIndex) =>
        if p.marketId != m then 0
        else -p.size * ((if p.isLong then longIndex else shortIndex) - p.lastFundingIndex)
    }
  }

  ghost function SeqTotal(w: Weight, list: seq<Position>): int {
    if list == [] then 0 else SeqTotal(w, list[..|list| - 1]) + w.Of(list[|list| - 1])
  }

  ghost function PerUser(w: Weight, positions: map<Address, seq<Position>>): map<Address, int> {
    map u | u in positions :: SeqTotal(w, positions[u])
  }

  /** The weight of every stored position of every user. */
  ghost function Total(w: Weight, positions: map<Address, seq<Position>>): int {
    Sum(PerUser(w, positions))
  }

  lemma {:induction false} SeqTotalConcat(w: Weight, a: seq<Position>, b: seq<Position>)
    ensures SeqTotal(w, a + b) == SeqTotal(w, a) + SeqTotal(w, b)
  {
    if b == [] {
      assert a + b == a;
    } else {
      SeqTotalConcat(w, a, b[..|b| - 1]);
      assert (a + b)[..|a + b| - 1] == a + b[..|b| - 1];
    }
  }

  lemma SeqTotalAppend(w: Weight, list: seq<Position>, p: Position)
    ensures SeqTotal(w, list + [p]) == SeqTotal(w, list) + w.Of(p)
  {
    assert (list + [p])[..|list|] == list;
  }

  lemma SeqTotalSplit(w: Weight, list: seq<Position>, i: nat)
    requires i < |list|
    ensures SeqTotal(w, list) == SeqTotal(w, list[..i]) + w.Of(list[i]) + SeqTotal(w, list[i + 1..])
  {
    SeqTotalAppend(w, list[..i], list[i]);
    SeqTotalConcat(w, list[..i] + [list[i]], list[i + 1..]);
    assert list == list[..i] + [list[i]] + list[i + 1..];
  }

  lemma SeqTotalUpdate(w: Weight, list: seq<Position>, i: nat, p: Position)
    requires i < |list|
    ensures SeqTotal(w, list[i := p]) == SeqTotal(w, list) - w.Of(list[i]) + w.Of(p)
  {
    SeqTotalSplit(w, list, i);
    SeqTotalSplit(w, list[i := p], i);
    assert list[i := p][..i] == list[..i] && list[i := p][i + 1..] == list[i + 1..];
  }

  lemma SeqTotalRemove(w: Weight, list: seq<Position>, i: nat)
    requires i < |list|
    ensures SeqTotal(w, list[..i] + list[i + 1..]) == SeqTotal(w, list) - w.Of(list[i])
  {
    SeqTotalSplit(w, list, i);
    SeqTotalConcat(w, list[..i], list[i + 1..]);
  }

  lemma SeqTotalEmpty(w: Weight)
    ensures SeqTotal(w, []) == 0
  {
  }

  /** Replacing one user's list changes a total by the difference of that user's sums. */
  lemma TotalSet(w: Weight, positions: map<Address, seq<Position>>, u: Address, list: seq<Position>)
    ensures Total(w, positions[u := list])
      == Total(w, positions) - SeqTotal(w, PositionsOf(positions, u)) + SeqTotal(w, list)
  {
    hide SeqTotal, Sum;
    SeqTotalEmpty(w);
    SumSet(PerUser(w, positions), u, SeqTotal(w, list));
    assert PerUser(w, positions[u := list]) == PerUser(w, positions)[u := SeqTotal(w, list)];
  }

  /** Moving the indexes by (a, b) charges every long `a` and every short `b` per unit of size. */
  lemma {:induction false} SeqAccruedShift(m: nat, longIndex: int, shortIndex: int, a: int, b: int, list: seq<Position>)
    ensures SeqTotal(AccruedFunding(m, longIndex + a, shortIndex + b), list)
         == SeqTotal(AccruedFunding(m, longIndex, shortIndex), list)
            - a * SeqTotal(SideSize(m, true), list) - b * SeqTotal(SideSize(m, false), list)
  {
    if list != [] {
      var p := list[|list| - 1];
      SeqAccruedShift(m, longIndex, shortIndex, a, b, list[..|list| - 1]);
      var l, s := SideSize(m, true).Of(p), SideSize(m, false).Of(p);
      assert AccruedFunding(m, longIndex + a, shortIndex + b).Of(p)
          == AccruedFunding(m, longIndex, shortIndex).Of(p) - a * l - b * s;
      Distribute(a, SeqTotal(SideSize(m, true), list[..|list| - 1]), l);
      Distribute(b, SeqTotal(SideSize(m, false), list[..|list| - 1]), s);
    }
  }

  lemma AccruedShift(m: nat, longIndex: int, shortIndex: int, a: int, b: int, positions: map<Address, seq<Position>>)
    ensures Total(AccruedFunding(m, longIndex + a, shortIndex + b), positions)
         == Total(AccruedFunding(m, longIndex, shortIndex), positions)
            - a * Total(SideSize(m, true), positions) - b * Total(SideSize(m, false), positions)
  {
    forall u | u in positions
      ensures PerUser(AccruedFunding(m, longIndex + a, shortIndex + b), positions)[u]
           == PerUser(AccruedFunding(m, longIndex, shortIndex), positions)[u]
              - a * PerUser(SideSize(m, true), positions)[u] - b * PerUser(SideSize(m, false), positions)[u]
    {
      SeqAccruedShift(m, longIndex, shortIndex, a, b, positions[u]);
    }
    SumLinear(PerUser(AccruedFunding(m, longIndex + a, shortIndex + b), positions),
              PerUser(AccruedFunding(m, longIndex, shortIndex), positions),
              a, PerUser(SideSize(m, true), positions), b, PerUser(SideSize(m, false), positions));
  }
}
