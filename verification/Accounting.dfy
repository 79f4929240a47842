/** Arithmetic of one position and one collateral amount, shared by engine and vault. */
module Accounting {
  import opened Outcomes
  import opened FixedPoint
  import opened EngineState

  /** Debt is never cut. */
  function AfterHaircut(value: int, haircutBps: nat): Result<int> {
    if value < 0 then Ok(value)
    else
      var haircut :- ApplyBps(value, haircutBps);
      CheckedSub(value, haircut)
  }

  function Notional(size: int, price: int): Result<int> {
    if size <= 0 || price <= 0 then Err(InvalidAmount) else MulPrecision(size, price)
  }

  function PositionPnl(p: Position, mark: int): Result<int> {
    if mark <= 0 || p.size <= 0 || p.entryPrice <= 0 then Err(InvalidPrice)
    else
      var move :- if p.isLong then CheckedSub(mark, p.entryPrice) else CheckedSub(p.entryPrice, mark);
      MulPrecision(p.size, move)
  }

  function FundingPnl(p: Position, index: int): Result<int> {
    var delta :- CheckedSub(index, p.lastFundingIndex);
    var raw :- MulPrecision(p.size, delta);
    CheckedSub(0, raw)
  }
}
