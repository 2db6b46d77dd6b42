/** Mark-to-market valuation of a position: `_value_position` of
    collector/collector_agent/trade_store.py. */
module Valuation {
  import opened Prelude
  import opened TradeModels

  function Times(a: real, b: real): real { a * b }

  function Ratio(a: real, b: real): real
    requires b != 0.0
  {
    a / b
  }

  function Abs(x: real): real { if x < 0.0 then -x else x }

  /** Gain per unit of moving from `entry` to `mark` on the position's side. */
  function Delta(side: Side, mark: real, entry: real): real {
    if side == Long then mark - entry else entry - mark
  }

  function Valued(p: Position, mark: Option<real>, priceAt: Option<int>): Position {
    if p.status != Active || p.quantity.None? || mark.None? then p.(mark := mark, priceAt := priceAt)
    else
      var notional := Abs(Times(p.quantity.value, mark.value));
      p.(mark := mark, priceAt := priceAt, notional := Some(notional),
         margin := if p.leverage.Some? && p.leverage.value > 0.0
                   then Some(Ratio(notional, p.leverage.value)) else None,
         pnl := if p.entry.Some?
                then Some(Times(Delta(p.side, mark.value, p.entry.value), p.quantity.value)) else None)
  }
}
