/** What holds in every reachable state of the engine. */
module EngineInvariant {
  import opened Outcomes
  import opened FixedPoint
  import opened MapSums
  import opened EngineState
  import opened Accounting
  import opened EngineTotals
  import opened EngineSpec

  // ----- Statements

  ghost predicate MarketsKeyed(s: State) {
    forall m | m in s.store.markets ::
      s.store.markets[m].market.marketId == m && EngineAcceptsMarket(s.store.markets[m])
  }

  predicate PositionSound(s: State, user: Address, p: Position) {
    && p.owner == user
    && p.size > 0
    && p.entryPrice >= 0
    && p.margin >= 0
    && 1 <= p.id < s.store.nextPositionId
  }

  ghost predicate ListSound(s: State, user: Address) {
    && |s.Positions(user)| <= MAX_POSITIONS_PER_USER
    && forall i | 0 <= i < |s.Positions(user)| :: PositionSound(s, user, s.Positions(user)[i])
  }

  ghost predicate IdsUnique(s: State) {
    forall u, v, i, j | 0 <= i < |s.Positions(u)| && 0 <= j < |s.Positions(v)| ::
      s.Positions(u)[i].id == s.Positions(v)[j].id ==> u == v && i == j
  }

  /** The vault holds exactly the engine's position lists, funding indexes and market configurations. */
  ghost predicate VaultMirrors(s: State) {
    && (forall u :: PositionsOf(s.vault.positions, u) == s.Positions(u))
    && (forall m :: Lookup(s.vault.fundingLong, m) == s.FundingIndex(m, true))
    && (forall m :: Lookup(s.vault.fundingShort, m) == s.FundingIndex(m, false))
    && s.vault.markets == map m | m in s.store.markets :: s.store.markets[m].market
  }

  ghost function SizeOnSide(s: State, m: nat, isLong: bool): int {
    Total(SideSize(m, isLong), s.store.positions)
  }

  /** Each side counter is the size of all users' positions on that side, and the total is the two sides. */
  ghost predicate InterestExact(s: State, m: nat) {
    && s.SideInterest(m, true) == SizeOnSide(s, m, true)
    && s.SideInterest(m, false) == SizeOnSide(s, m, false)
    && s.OpenInterest(m) == s.SideInterest(m, true) + s.SideInterest(m, false)
  }

  /** Funding that live positions have accrued but not settled, scaled by PRECISION. */
  ghost function Accrued(s: State, m: nat): int {
    Total(AccruedFunding(m, s.FundingIndex(m, true), s.FundingIndex(m, false)), s.store.positions)
  }

  /** Paid to positions, routed to insurance, and still accrued: what funding has moved, scaled by PRECISION. */
  ghost function FundingMoved(s: State, m: nat): int {
    PRECISION * (s.BookOf(m).paid + s.BookOf(m).routed) + Accrued(s, m)
  }

  ghost function FundingResidual(s: State, m: nat): int {
    FundingMoved(s, m) + s.BookOf(m).unrouted
  }

  /** Each rounding loses less than one unit. */
  ghost predicate FundingConserved(s: State, m: nat) {
    Abs(FundingResidual(s, m)) <= (PRECISION - 1) * s.BookOf(m).roundings
  }

  /** Realized PnL plus the averaged position, less the plain cash ledger. */
  function CashResidual(b: CashBook): int {
    var open := b.position.size * b.position.entryPrice;
    var flows := b.reducedValue - b.addedValue;
    if b.position.isLong then PRECISION * b.realized - open - flows else PRECISION * b.realized + open + flows
  }

  predicate CashSound(b: CashBook) {
    && Abs(CashResidual(b)) <= b.slack
    && b.addedSize - b.reducedSize == b.position.size
    && b.position.size >= 0
  }

  ghost predicate CashBooksSound(s: State) {
    && (forall id | id in s.books.cash :: 1 <= id < s.store.nextPositionId && CashSound(s.books.cash[id]))
    && forall u, i | 0 <= i < |s.Positions(u)| ::
         var p := s.Positions(u)[i];
         p.id in s.books.cash && s.books.cash[p.id].position == p
  }

  /** Adding to a long buys, adding to a short sells. */
  function Bought(b: CashBook, added: int): int {
    if b.position.isLong then added else -added
  }

  /** What a position's ledger entry contributes to a sum. */
  datatype CashWeight =
    | Realized
    | Due(user: Address)    // everything the user's own positions were paid
    | PaidIn(market: nat)   // funding paid in one market
    | NetSize(market: nat)  // bought less sold
    | NetValue(market: nat)
    | ValueOf(user: Address, market: nat)  // the user's part of NetValue
  {
    function Of(b: CashBook): int {
      match this
      case Realized => b.realized
      case Due(user) => if b.position.owner == user then b.realized + b.funding else 0
      case PaidIn(market) => if b.position.marketId == market then b.funding else 0
      case NetSize(market) => if b.position.marketId == market then Bought(b, b.addedSize - b.reducedSize) else 0
      case NetValue(market) => if b.position.marketId == market then Bought(b, b.addedValue - b.reducedValue) else 0
      case ValueOf(user, market) =>
        if b.position.owner == user && b.position.marketId == market then Bought(b, b.addedValue - b.reducedValue)
        else 0
    }
  }

  ghost function CashPer(w: CashWeight, cash: map<nat, CashBook>): map<nat, int> {
    map id | id in cash :: w.Of(cash[id])
  }

  ghost function CashTotal(w: CashWeight, cash: map<nat, CashBook>): int {
    Sum(CashPer(w, cash))
  }

  ghost function FundedPer(funding: map<nat, FundingBook>): map<nat, int> {
    map m | m in funding :: funding[m].paid + funding[m].routed
  }

  ghost function FundedTotal(funding: map<nat, FundingBook>): int {
    Sum(FundedPer(funding))
  }

  ghost function RoutedPer(funding: map<nat, FundingBook>): map<nat, int> {
    map m | m in funding :: funding[m].routed
  }

  ghost function RoutedTotal(funding: map<nat, FundingBook>): int {
    Sum(RoutedPer(funding))
  }

  /** All vault money: what came from outside, plus realized PnL, plus funding paid and routed. Fees only move it. */
  ghost predicate VaultAccounted(s: State) {
    Sum(s.vault.balances) == Sum(s.books.external) + CashTotal(Realized, s.books.cash) + FundedTotal(s.books.funding)
  }

  /** What the books say an account should hold. */
  ghost function Entitled(s: State, user: Address): int {
    Balance(s.books.external, user) + Balance(s.books.routed, user) + Balance(s.books.fees, user)
      + CashTotal(Due(user), s.books.cash)
  }

  /**
   Every account holds exactly its external flows, its own positions' PnL and
   funding, surplus routed to it, and fees.
   */
  ghost predicate BalancesExact(s: State) {
    forall u :: Balance(s.vault.balances, u) == Entitled(s, u)
  }

  /** The funding booked as paid in a market is what its positions were paid. */
  ghost predicate PaidExact(s: State) {
    forall m :: s.BookOf(m).paid == CashTotal(PaidIn(m), s.books.cash)
  }

  /** Surplus booked as routed is what accounts were credited, and fees only change hands. */
  ghost predicate TransfersExact(s: State) {
    Sum(s.books.routed) == RoutedTotal(s.books.funding) && Sum(s.books.fees) == 0
  }

  /** All that is said about vault money. */
  ghost predicate MoneyExact(s: State) {
    VaultAccounted(s) && BalancesExact(s) && PaidExact(s) && TransfersExact(s)
  }

  ghost predicate Invariant(s: State) {
    && s.store.nextPositionId >= 1
    && MarketsKeyed(s)
    && (forall u :: ListSound(s, u))
    && IdsUnique(s)
    && VaultMirrors(s)
    && (forall m :: InterestExact(s, m))
    && (forall m :: FundingConserved(s, m))
    && CashBooksSound(s)
    && MoneyExact(s)
  }

  // ----- The pieces a call changes

  /** One account moved by `amount`, and no other did. */
  ghost predicate Paid(before: map<Address, int>, after: map<Address, int>, user: Address, amount: int) {
    && (forall u :: Balance(after, u) == Balance(before, u) + if u == user then amount else 0)
    && Sum(after) == Sum(before) + amount
  }

  lemma CreditPays(balances: map<Address, int>, user: Address, amount: int)
    ensures Paid(balances, Credit(balances, user, amount), user, amount)
  {
    SumSet(balances, user, Balance(balances, user) + amount);
  }

  /** Applying PnL pays exactly it, to exactly its account. */
  lemma ApplyPnlPays(v: VaultState, user: Address, pnl: int)
    requires ApplyPnl(v, user, pnl).Ok?
    ensures ApplyPnl(v, user, pnl).value == v.(balances := Credit(v.balances, user, pnl))
    ensures Paid(v.balances, ApplyPnl(v, user, pnl).value.balances, user, pnl)
  {
    CreditPays(v.balances, user, pnl);
  }

  lemma FundedTotalSet(funding: map<nat, FundingBook>, m: nat, book: FundingBook)
    ensures FundedTotal(funding[m := book])
         == FundedTotal(funding) - (if m in funding then funding[m].paid + funding[m].routed else 0) + book.paid
           + book.routed
  {
    SumSet(FundedPer(funding), m, book.paid + book.routed);
    assert FundedPer(funding[m := book]) == FundedPer(funding)[m := book.paid + book.routed];
  }

  lemma RoutedTotalSet(funding: map<nat, FundingBook>, m: nat, book: FundingBook)
    ensures RoutedTotal(funding[m := book])
         == RoutedTotal(funding) - (if m in funding then funding[m].routed else 0) + book.routed
  {
    SumSet(RoutedPer(funding), m, book.routed);
    assert RoutedPer(funding[m := book]) == RoutedPer(funding)[m := book.routed];
  }

  lemma CashTotalSet(w: CashWeight, cash: map<nat, CashBook>, id: nat, book: CashBook)
    ensures CashTotal(w, cash[id := book])
      == CashTotal(w, cash) - (if id in cash then w.Of(cash[id]) else 0) + w.Of(book)
  {
    SumSet(CashPer(w, cash), id, w.Of(book));
    assert CashPer(w, cash[id := book]) == CashPer(w, cash)[id := w.Of(book)];
  }

  /** Every total moves by the difference between the replaced position and its replacement. */
  ghost predicate Exchanged(s: State, t: State, old0: Position, new0: Position) {
    forall w :: Total(w, t.store.positions) == Total(w, s.store.positions) - w.Of(old0) + w.Of(new0)
  }

  lemma ExchangedByAppend(s: State, t: State, user: Address, p: Position)
    requires t.store.positions == s.store.positions[user := s.Positions(user) + [p]]
    ensures Exchanged(s, t, p.(size := 0), p)
  {
    forall w ensures Total(w, t.store.positions) == Total(w, s.store.positions) - w.Of(p.(size := 0)) + w.Of(p) {
      TotalSet(w, s.store.positions, user, s.Positions(user) + [p]);
      SeqTotalAppend(w, s.Positions(user), p);
    }
  }

  /** Replacing one position changes its owner's sum by the difference of the two. */
  lemma ReplacedTotal(w: Weight, list: seq<Position>, index: nat, p: Position)
    requires index < |list|
    ensures SeqTotal(w, Replaced(list, index, p)) == SeqTotal(w, list) - w.Of(list[index]) + w.Of(p)
  {
    hide SeqTotal;
    if p.size == 0 {
      SeqTotalRemove(w, list, index);
      ZeroSizeWeighsNothing(w, p);
    } else {
      SeqTotalUpdate(w, list, index, p);
    }
  }

  lemma ZeroSizeWeighsNothing(w: Weight, p: Position)
    requires p.size == 0
    ensures w.Of(p) == 0
  {
  }

  lemma ExchangedByReplace(s: State, t: State, user: Address, index: nat, p: Position)
    requires index < |s.Positions(user)|
    requires t.store.positions == s.store.positions[user := Replaced(s.Positions(user), index, p)]
    ensures Exchanged(s, t, s.Positions(user)[index], p)
  {
    hide Total, SeqTotal, Replaced;
    var list := s.Positions(user);
    forall w ensures Total(w, t.store.positions) == Total(w, s.store.positions) - w.Of(list[index]) + w.Of(p) {
      TotalSet(w, s.store.positions, user, Replaced(list, index, p));
      ReplacedTotal(w, list, index, p);
    }
  }

  /** Interest moved by the change of one position's size keeps the counters exact. */
  lemma InterestAfterTrade(s: State, t: State, old0: Position, new0: Position)
    requires forall m :: InterestExact(s, m)
    requires Exchanged(s, t, old0, new0)
    requires old0.marketId == new0.marketId && old0.isLong == new0.isLong
    requires MoveInterest(s.store, new0.marketId, new0.isLong, new0.size - old0.size).Ok?
    requires var moved := MoveInterest(s.store, new0.marketId, new0.isLong, new0.size - old0.size).value;
      && t.store.openInterest == moved.openInterest
      && t.store.longOpenInterest == moved.longOpenInterest
      && t.store.shortOpenInterest == moved.shortOpenInterest
    ensures forall m :: InterestExact(t, m)
  {
    hide Total;
    forall m ensures InterestExact(t, m) {
      assert InterestExact(s, m);
      assert Total(SideSize(m, true), t.store.positions)
          == Total(SideSize(m, true), s.store.positions) - SideSize(m, true).Of(old0) + SideSize(m, true).Of(new0);
      assert Total(SideSize(m, false), t.store.positions)
          == Total(SideSize(m, false), s.store.positions) - SideSize(m, false).Of(old0) + SideSize(m, false).Of(new0);
    }
  }

  /** A settled position has nothing accrued, and what it was paid is within one unit of what it had accrued. */
  lemma FundingPnlNear(p: Position, index: int)
    requires FundingPnl(p, index).Ok?
    ensures Abs(PRECISION * FundingPnl(p, index).value + p.size * (index - p.lastFundingIndex)) <= PRECISION - 1
  {
    TruncDivBounds(p.size * (index - p.lastFundingIndex), PRECISION);
  }

  /** Settling before resizing keeps every market's funding conserved. */
  lemma FundingAfterTrade(s: State, t: State, old0: Position, new0: Position, pnl: int)
    requires forall m :: FundingConserved(s, m)
    requires Exchanged(s, t, old0, new0)
    requires old0.marketId == new0.marketId && old0.isLong == new0.isLong
    requires t.store.fundingStates == s.store.fundingStates
    requires new0.lastFundingIndex == s.FundingIndex(new0.marketId, new0.isLong)
    requires FundingPnl(old0, new0.lastFundingIndex) == Ok(pnl)
    requires var book := s.BookOf(old0.marketId);
      t.books.funding
        == s.books.funding[old0.marketId := book.(paid := book.paid + pnl, roundings := book.roundings + 1)]
    ensures forall m :: FundingConserved(t, m)
  {
    hide Total, FundingPnl;
    forall m ensures FundingConserved(t, m) {
      assert FundingConserved(s, m);
      var w := AccruedFunding(m, s.FundingIndex(m, true), s.FundingIndex(m, false));
      assert Total(w, t.store.positions) == Total(w, s.store.positions) - w.Of(old0) + w.Of(new0);
      if m == old0.marketId {
        var x := old0.size * (new0.lastFundingIndex - old0.lastFundingIndex);
        AccruedAt(w, old0, new0.lastFundingIndex);
        AccruedAt(w, new0, new0.lastFundingIndex);
        FundingPnlNear(old0, new0.lastFundingIndex);
        assert Accrued(t, m) == Accrued(s, m) + x;
        assert FundingResidual(t, m) == FundingResidual(s, m) + PRECISION * pnl + x;
      }
    }
  }

  lemma AccruedAt(w: Weight, p: Position, index: int)
    requires w.AccruedFunding? && w.market == p.marketId
    requires index == if p.isLong then w.longIndex else w.shortIndex
    ensures w.Of(p) == -(p.size * (index - p.lastFundingIndex))
    ensures index == p.lastFundingIndex ==> w.Of(p) == 0
  {
    assert -p.size * (index - p.lastFundingIndex) == -(p.size * (index - p.lastFundingIndex));
  }
}
