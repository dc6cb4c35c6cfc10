/**
 * The exchange order adapters of exchanges.py. An exchange is modelled as an
 * abstract order book: the orders it has accepted, the ones still live and a
 * supply of fresh order ids. Which API calls fail with an error other than
 * "order not found" is fixed by `failingCalls`, a set of call numbers, so that
 * every failure schedule can be stated.
 */
module Exchanges {
  import opened Wrappers
  import opened Trades

  datatype Order =
    | OcoSell(symbol: string, amount: real, price: real, stopPrice: real, stopLimitPrice: Option<real>)
    | LimitSell(symbol: string, amount: real, price: real)
    | StopMarketSell(symbol: string, amount: real, stopPrice: real)

  /** `ccxt.OrderNotFound`, or any other exception the client raises. */
  datatype ApiError = OrderNotFound | ExchangeFailure

  /** The `ValueError` for a missing stored id, or an exception propagated from the client. */
  datatype AdapterError = MissingOrderId | Api(cause: ApiError)

  datatype Ticker = Ticker(last: Option<real>)

  class Exchange {
    const id: string
    const apiKey: string
    /** `price_to_precision`, whose rounding rules belong to the exchange. */
    const priceToPrecision: (string, real) -> real
    /** Call numbers at which the exchange answers with an error other than not-found. */
    const failingCalls: set<nat>

    var orders: map<OrderId, Order>
    var live: set<OrderId>
    var nextOrderId: OrderId
    var callCount: nat

    var tickersCache: Option<map<string, Ticker>>
    var tickersCacheTime: real

    ghost predicate Valid()
      reads this
    {
      live <= orders.Keys && forall o :: o in orders ==> o < nextOrderId
    }

    constructor (id: string, apiKey: string, priceToPrecision: (string, real) -> real, failingCalls: set<nat>)
      ensures Valid()
      ensures this.id == id && this.apiKey == apiKey && this.priceToPrecision == priceToPrecision
      ensures this.failingCalls == failingCalls
      ensures orders == map[] && live == {} && nextOrderId == 0 && callCount == 0
      ensures tickersCache == None && tickersCacheTime == 0.0
    {
      this.id := id;
      this.apiKey := apiKey;
      this.priceToPrecision := priceToPrecision;
      this.failingCalls := failingCalls;
      orders, live, nextOrderId, callCount := map[], {}, 0, 0;
      tickersCache, tickersCacheTime := None, 0.0;
    }

    /** `create_order`: a fresh id for an accepted order. */
    method CreateOrder(o: Order) returns (r: Result<OrderId, ApiError>)
      requires Valid()
      modifies this`orders, this`live, this`nextOrderId, this`callCount
      ensures Valid() && callCount == old(callCount) + 1
      ensures old(callCount) in failingCalls ==>
        r == Err(ExchangeFailure) && orders == old(orders) && live == old(live) && nextOrderId == old(nextOrderId)
      ensures old(callCount) !in failingCalls ==>
        && r == Ok(old(nextOrderId))
        && old(nextOrderId) !in old(orders)
        && orders == old(orders)[old(nextOrderId) := o]
        && live == old(live) + {old(nextOrderId)}
        && nextOrderId == old(nextOrderId) + 1
    {
      if callCount in failingCalls {
        r := Err(ExchangeFailure);
      } else {
        r := Ok(nextOrderId);
        orders := orders[nextOrderId := o];
        live := live + {nextOrderId};
        nextOrderId := nextOrderId + 1;
      }
      callCount := callCount + 1;
    }

    /** `cancel_order`: a live order stops being live; anything else is not found. */
    method CancelOrder(orderId: OrderId) returns (r: Outcome<ApiError>)
      requires Valid()
      modifies this`live, this`callCount
      ensures Valid() && callCount == old(callCount) + 1
      ensures old(callCount) in failingCalls ==> r == Fail(ExchangeFailure) && live == old(live)
      ensures old(callCount) !in failingCalls && orderId in old(live) ==> r == Pass && live == old(live) - {orderId}
      ensures old(callCount) !in failingCalls && orderId !in old(live) ==> r == Fail(OrderNotFound) && live == old(live)
    {
      if callCount in failingCalls {
        r := Fail(ExchangeFailure);
      } else if orderId in live {
        r := Pass;
        live := live - {orderId};
      } else {
        r := Fail(OrderNotFound);
      }
      callCount := callCount + 1;
    }
  }

  // ---------------------------------------------------------------------------
  // The adapter family map (exchanges.py:150-170)
  // ---------------------------------------------------------------------------

  /** One combined OCO exit order, or separate take-profit and stop-loss orders. */
  datatype Family = OcoFamily | DualOrderFamily

  datatype Adapter = Adapter(family: Family, exchange: Exchange)

  /** ASCII `str.lower`. */
  function Lower(s: string): (r: string)
    ensures |r| == |s|
    ensures forall i :: 0 <= i < |s| ==> r[i] == LowerChar(s[i])
  {
    if s == [] then [] else Lower(s[..|s| - 1]) + [LowerChar(s[|s| - 1])]
  }

  function LowerChar(c: char): char
  {
    if 'A' <= c <= 'Z' then (c as int + 32) as char else c
  }

  /** Lower-casing twice is lower-casing once. */
  lemma LowerIdempotent(s: string)
    ensures Lower(Lower(s)) == Lower(s)
  {
  }

  /** `adapter_map`: the exit-order family of each supported exchange. */
  function AdapterFamily(exchangeId: string): (r: Option<Family>)
    ensures r == Some(OcoFamily) <==> exchangeId in {"binance", "bybit", "gate", "okx"}
    ensures r == Some(DualOrderFamily) <==> exchangeId in {"kucoin", "mexc"}
  {
    match exchangeId
    case "binance" => Some(OcoFamily)
    case "kucoin" => Some(DualOrderFamily)
    case "okx" => Some(OcoFamily)
    case "bybit" => Some(OcoFamily)
    case "gate" => Some(OcoFamily)
    case "mexc" => Some(DualOrderFamily)
    case _ => None
  }

  /**
   * `get_exchange_adapter`: `clients` are the authenticated clients by
   * lower-case id.
   */
  function GetExchangeAdapter(clients: map<string, Exchange>, exchangeId: string): (r: Option<Adapter>)
    ensures r.Some? <==> Lower(exchangeId) in clients && AdapterFamily(Lower(exchangeId)).Some?
    ensures r.Some? ==> r.value == Adapter(AdapterFamily(Lower(exchangeId)).value, clients[Lower(exchangeId)])
  {
    var key := Lower(exchangeId);
    if key !in clients then None
    else match AdapterFamily(key)
      case None => None
      case Some(f) => Some(Adapter(f, clients[key]))
  }

  /** The adapter lookup ignores the case of the exchange id. */
  lemma AdapterLookupIgnoresCase(clients: map<string, Exchange>, exchangeId: string)
    ensures GetExchangeAdapter(clients, exchangeId) == GetExchangeAdapter(clients, Lower(exchangeId))
  {
    LowerIdempotent(exchangeId);
  }

  // ---------------------------------------------------------------------------
  // get_real_balance (exchanges.py:205-216)
  // ---------------------------------------------------------------------------

  /**
   * `freeBalances` is the `free` part of what `fetch_balance` returned,
   * None when the call raised.
   */
  function GetRealBalance(clients: map<string, Exchange>, exchangeId: string, currency: string,
                          freeBalances: Option<map<string, real>>): (r: real)
    ensures Lower(exchangeId) !in clients || clients[Lower(exchangeId)].apiKey == "" || freeBalances.None? ==> r == 0.0
    ensures Lower(exchangeId) in clients && clients[Lower(exchangeId)].apiKey != "" && freeBalances.Some? ==>
      r == (if currency in freeBalances.value then freeBalances.value[currency] else 0.0)
  {
    var key := Lower(exchangeId);
    if key !in clients || clients[key].apiKey == "" then 0.0
    else match freeBalances
      case None => 0.0
      case Some(free) => if currency in free then free[currency] else 0.0
  }

  // ---------------------------------------------------------------------------
  // OCO family (exchanges.py:62-103)
  // ---------------------------------------------------------------------------

  /** The combined exit order; binance also takes the stop as `stopLimitPrice`. */
  function OcoExitOrder(ex: Exchange, symbol: string, amount: real, takeProfit: real, stopLoss: real): Order
  {
    var sl := ex.priceToPrecision(symbol, stopLoss);
    OcoSell(symbol, amount, ex.priceToPrecision(symbol, takeProfit), sl,
            if ex.id == "binance" then Some(sl) else None)
  }

  method OcoPlaceExitOrders(ex: Exchange, symbol: string, takeProfit: real, stopLoss: real, quantity: real)
    returns (r: Result<ExitOrderIds, AdapterError>)
    requires ex.Valid()
    modifies ex`orders, ex`live, ex`nextOrderId, ex`callCount
    ensures ex.Valid()
    ensures old(ex.callCount) in ex.failingCalls ==>
      r == Err(Api(ExchangeFailure)) && ex.orders == old(ex.orders) && ex.live == old(ex.live)
    ensures old(ex.callCount) !in ex.failingCalls ==>
      && r == Ok(map["oco_id" := old(ex.nextOrderId)])
      && old(ex.nextOrderId) !in old(ex.orders)
      && ex.orders == old(ex.orders)[old(ex.nextOrderId) := OcoExitOrder(ex, symbol, quantity, takeProfit, stopLoss)]
      && ex.live == old(ex.live) + {old(ex.nextOrderId)}
  {
    var created := ex.CreateOrder(OcoExitOrder(ex, symbol, quantity, takeProfit, stopLoss));
    match created
    case Err(e) => r := Err(Api(e));
    case Ok(orderId) => r := Ok(map["oco_id" := orderId]);
  }

  /**
   * Cancels the stored OCO (tolerating not-found), then places a new one with
   * the trade's quantity and take-profit and the new stop.
   */
  method OcoUpdateTrailingStopLoss(ex: Exchange, trade: Trade, newStopLoss: real)
    returns (r: Result<ExitOrderIds, AdapterError>)
    requires ex.Valid()
    modifies ex`orders, ex`live, ex`nextOrderId, ex`callCount
    ensures ex.Valid()
    // a missing stored id raises before any call
    ensures "oco_id" !in trade.exitOrderIds ==> r == Err(MissingOrderId) && unchanged(ex)
    // a failed cancellation propagates and nothing is created
    ensures "oco_id" in trade.exitOrderIds && old(ex.callCount) in ex.failingCalls ==>
      r == Err(Api(ExchangeFailure)) && ex.orders == old(ex.orders) && ex.live == old(ex.live)
    // otherwise exactly the stored id is no longer live ...
    ensures "oco_id" in trade.exitOrderIds && old(ex.callCount) !in ex.failingCalls ==>
      var cancelled := old(ex.live) - {trade.exitOrderIds["oco_id"]};
      // ... and a failed creation leaves the trade without exit orders
      && (old(ex.callCount) + 1 in ex.failingCalls ==>
            r == Err(Api(ExchangeFailure)) && ex.orders == old(ex.orders) && ex.live == cancelled)
      // ... or one fresh OCO with the same quantity and take-profit is live
      && (old(ex.callCount) + 1 !in ex.failingCalls ==>
            && r == Ok(map["oco_id" := old(ex.nextOrderId)])
            && old(ex.nextOrderId) !in old(ex.orders)
            && ex.orders == old(ex.orders)[old(ex.nextOrderId) :=
                 OcoExitOrder(ex, trade.symbol, trade.quantity, trade.takeProfit, newStopLoss)]
            && ex.live == cancelled + {old(ex.nextOrderId)})
  {
    if "oco_id" !in trade.exitOrderIds {
      return Err(MissingOrderId);
    }
    var cancel := ex.CancelOrder(trade.exitOrderIds["oco_id"]);
    if cancel == Fail(ExchangeFailure) {
      return Err(Api(ExchangeFailure));
    }
    var created := ex.CreateOrder(OcoExitOrder(ex, trade.symbol, trade.quantity, trade.takeProfit, newStopLoss));
    match created
    case Err(e) => r := Err(Api(e));
    case Ok(orderId) => r := Ok(map["oco_id" := orderId]);
  }

  // ---------------------------------------------------------------------------
  // Dual-order family (exchanges.py:105-148)
  // ---------------------------------------------------------------------------

  function TakeProfitOrder(ex: Exchange, symbol: string, amount: real, takeProfit: real): Order
  {
    LimitSell(symbol, amount, ex.priceToPrecision(symbol, takeProfit))
  }

  function StopLossOrder(ex: Exchange, symbol: string, amount: real, stopLoss: real): Order
  {
    StopMarketSell(symbol, amount, ex.priceToPrecision(symbol, stopLoss))
  }

  /** A limit sell at the take-profit, then a stop-triggered market sell at the stop. */
  method DualPlaceExitOrders(ex: Exchange, symbol: string, takeProfit: real, stopLoss: real, quantity: real)
    returns (r: Result<ExitOrderIds, AdapterError>)
    requires ex.Valid()
    modifies ex`orders, ex`live, ex`nextOrderId, ex`callCount
    ensures ex.Valid()
    ensures old(ex.callCount) in ex.failingCalls ==>
      r == Err(Api(ExchangeFailure)) && ex.orders == old(ex.orders) && ex.live == old(ex.live)
    ensures old(ex.callCount) !in ex.failingCalls ==>
      var tp, sl := old(ex.nextOrderId), old(ex.nextOrderId) + 1;
      && tp !in old(ex.orders) && sl !in old(ex.orders)
      && (old(ex.callCount) + 1 in ex.failingCalls ==>
            && r == Err(Api(ExchangeFailure))
            && ex.orders == old(ex.orders)[tp := TakeProfitOrder(ex, symbol, quantity, takeProfit)]
            && ex.live == old(ex.live) + {tp})
      && (old(ex.callCount) + 1 !in ex.failingCalls ==>
            && r == Ok(map["tp_id" := tp, "sl_id" := sl])
            && ex.orders == old(ex.orders)[tp := TakeProfitOrder(ex, symbol, quantity, takeProfit)]
                                          [sl := StopLossOrder(ex, symbol, quantity, stopLoss)]
            && ex.live == old(ex.live) + {tp, sl})
  {
    var tpOrder := ex.CreateOrder(TakeProfitOrder(ex, symbol, quantity, takeProfit));
    if tpOrder.Err? {
      return Err(Api(tpOrder.error));
    }
    var slOrder := ex.CreateOrder(StopLossOrder(ex, symbol, quantity, stopLoss));
    if slOrder.Err? {
      return Err(Api(slOrder.error));
    }
    r := Ok(map["tp_id" := tpOrder.value, "sl_id" := slOrder.value]);
  }

  /**
   * Cancels both stored orders independently (each tolerating not-found),
   * then places both anew with the trade's quantity and take-profit and the
   * new stop.
   */
  method DualUpdateTrailingStopLoss(ex: Exchange, trade: Trade, newStopLoss: real)
    returns (r: Result<ExitOrderIds, AdapterError>)
    requires ex.Valid()
    modifies ex`orders, ex`live, ex`nextOrderId, ex`callCount
    ensures ex.Valid()
    ensures "tp_id" !in trade.exitOrderIds || "sl_id" !in trade.exitOrderIds ==>
      r == Err(MissingOrderId) && unchanged(ex)
    ensures "tp_id" in trade.exitOrderIds && "sl_id" in trade.exitOrderIds ==>
      var c := old(ex.callCount);
      var tpOld, slOld := trade.exitOrderIds["tp_id"], trade.exitOrderIds["sl_id"];
      var tp, sl := old(ex.nextOrderId), old(ex.nextOrderId) + 1;
      // a failed cancellation propagates, and nothing is created
      && (c in ex.failingCalls || c + 1 in ex.failingCalls ==>
            && r == Err(Api(ExchangeFailure)) && ex.orders == old(ex.orders)
            && (c in ex.failingCalls ==> ex.live == old(ex.live))
            && (c !in ex.failingCalls ==> ex.live == old(ex.live) - {tpOld}))
      // both cancellations went through or found nothing
      && (c !in ex.failingCalls && c + 1 !in ex.failingCalls ==>
            var cancelled := old(ex.live) - {tpOld, slOld};
            && (c + 2 in ex.failingCalls ==>
                  r == Err(Api(ExchangeFailure)) && ex.orders == old(ex.orders) && ex.live == cancelled)
            && (c + 2 !in ex.failingCalls && c + 3 in ex.failingCalls ==>
                  && r == Err(Api(ExchangeFailure))
                  && ex.orders == old(ex.orders)[tp := TakeProfitOrder(ex, trade.symbol, trade.quantity, trade.takeProfit)]
                  && ex.live == cancelled + {tp})
            && (c + 2 !in ex.failingCalls && c + 3 !in ex.failingCalls ==>
                  && r == Ok(map["tp_id" := tp, "sl_id" := sl])
                  && tp !in old(ex.orders) && sl !in old(ex.orders)
                  && ex.orders == old(ex.orders)[tp := TakeProfitOrder(ex, trade.symbol, trade.quantity, trade.takeProfit)]
                                                [sl := StopLossOrder(ex, trade.symbol, trade.quantity, newStopLoss)]
                  && ex.live == cancelled + {tp, sl}))
  {
    if "tp_id" !in trade.exitOrderIds || "sl_id" !in trade.exitOrderIds {
      return Err(MissingOrderId);
    }
    var cancelTp := ex.CancelOrder(trade.exitOrderIds["tp_id"]);
    if cancelTp == Fail(ExchangeFailure) {
      return Err(Api(ExchangeFailure));
    }
    var cancelSl := ex.CancelOrder(trade.exitOrderIds["sl_id"]);
    if cancelSl == Fail(ExchangeFailure) {
      return Err(Api(ExchangeFailure));
    }
    r := DualPlaceExitOrders(ex, trade.symbol, trade.takeProfit, newStopLoss, trade.quantity);
  }

  // ---------------------------------------------------------------------------
  // One interface over both families
  // ---------------------------------------------------------------------------

  /** `adapter.place_exit_orders(signal, quantity)`. */
  method PlaceExitOrders(adapter: Adapter, symbol: string, takeProfit: real, stopLoss: real, quantity: real)
    returns (r: Result<ExitOrderIds, AdapterError>)
    requires adapter.exchange.Valid()
    modifies adapter.exchange`orders, adapter.exchange`live, adapter.exchange`nextOrderId, adapter.exchange`callCount
    ensures adapter.exchange.Valid()
    ensures r.Ok? ==> r.value.Keys == (if adapter.family == OcoFamily then {"oco_id"} else {"tp_id", "sl_id"})
    ensures r.Ok? ==> forall k :: k in r.value ==> r.value[k] !in old(adapter.exchange.orders)
  {
    match adapter.family
    case OcoFamily => r := OcoPlaceExitOrders(adapter.exchange, symbol, takeProfit, stopLoss, quantity);
    case DualOrderFamily => r := DualPlaceExitOrders(adapter.exchange, symbol, takeProfit, stopLoss, quantity);
  }

  /** `adapter.update_trailing_stop_loss(trade, new_sl)`. */
  method UpdateTrailingStopLoss(adapter: Adapter, trade: Trade, newStopLoss: real)
    returns (r: Result<ExitOrderIds, AdapterError>)
    requires adapter.exchange.Valid()
    modifies adapter.exchange`orders, adapter.exchange`live, adapter.exchange`nextOrderId, adapter.exchange`callCount
    ensures adapter.exchange.Valid()
    ensures r.Ok? ==> r.value.Keys == (if adapter.family == OcoFamily then {"oco_id"} else {"tp_id", "sl_id"})
    ensures r.Ok? ==> forall k :: k in r.value ==> r.value[k] !in old(adapter.exchange.orders)
    ensures r.Ok? ==> forall k :: k in trade.exitOrderIds && k in r.value && trade.exitOrderIds[k] in old(adapter.exchange.orders) ==>
      trade.exitOrderIds[k] !in adapter.exchange.live
  {
    match adapter.family
    case OcoFamily => r := OcoUpdateTrailingStopLoss(adapter.exchange, trade, newStopLoss);
    case DualOrderFamily => r := DualUpdateTrailingStopLoss(adapter.exchange, trade, newStopLoss);
  }
}
