/** Position sides, positions and the numbers a position derives
    (perplab/core/types.py:49-89, perplab/core/account.py:187-355). */
module Positions {
  import opened Money
  import opened Liquidation

  datatype PositionSide = BOTH | LONG | SHORT {
    predicate Hedged()
    {
      !BOTH?
    }

    /** The sign of a fill that opens this side; zero for either. */
    function OpeningSign(): int
    {
      match this
      case BOTH => 0
      case LONG => 1
      case SHORT => -1
    }
  }

  datatype Key = Key(symbol: string, side: PositionSide)

  function Sign(x: real): int
  {
    if x > 0.0 then 1 else if x < 0.0 then -1 else 0
  }

  /** One open position; its symbol and side are the key it is stored under. */
  datatype Position = Position(qty: real, entry: real, leverage: int, extra: real, funding: real) {
    function EntryNotional(): real
    {
      Times(Abs(qty), entry)
    }

    /** `initial_margin` at the entry notional. */
    function BaseMargin(): real
      requires leverage >= 1
    {
      Quantize(EntryNotional() / leverage as real)
    }

    function IsolatedMargin(): real
      requires leverage >= 1
    {
      Quantize(BaseMargin() + extra + funding)
    }

    function ReservedMargin(): real
      requires leverage >= 1
    {
      if IsolatedMargin() > 0.0 then IsolatedMargin() else 0.0
    }

    function UnrealizedPnl(mark: real): real
    {
      Times(qty, mark - entry)
    }

    function AsHolding(margin: real): Holding
    {
      Holding(qty, entry, margin)
    }
  }

  /** What the constructor of a position accepts. */
  predicate PositionBuilds(side: PositionSide, p: Position)
  {
    && p.qty != 0.0
    && p.entry > 0.0
    && p.leverage >= 1
    && p.extra >= 0.0
    && (side.LONG? ==> p.qty > 0.0)
    && (side.SHORT? ==> p.qty < 0.0)
  }
}
