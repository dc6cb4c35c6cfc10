/** The trade row the engine reads from its trade table. */
module Trades {
  import opened Wrappers

  /** An exchange's order reference. */
  type OrderId = nat

  /** `exit_order_ids_json` once parsed: "oco_id", or "tp_id" and "sl_id". */
  type ExitOrderIds = map<string, OrderId>

  datatype TradeMode = Virtual | Real

  datatype Trade = Trade(
    id: nat,
    exchange: string,
    symbol: string,
    entryPrice: real,
    takeProfit: real,
    stopLoss: real,
    quantity: real,
    entryValueUsdt: Option<real>,  // None when the stored value is NULL
    mode: TradeMode,
    exitOrderIds: ExitOrderIds)
}
