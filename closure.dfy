/**
 * Closing a trade (`process_trade_closure`, core_logic.py:124-168): realized
 * PnL, the closing status, the trade-table update, the virtual balance, and
 * the notification's PnL percentage, duration and template.
 */
module TradeClosure {
  import opened Wrappers
  import opened Trades

  /** 'ناجحة (تحقيق هدف)', 'ناجحة (وقف ربح)' and 'فاشلة (وقف خسارة)'. */
  datatype CloseStatus = TargetHit | ProfitByStop | StopLoss

  /**
   * `(exit_price - entry_price) * quantity`: each unit held gains the move
   * from the entry to the exit, and an exit at the entry breaks even.
   */
  function RealizedPnl(trade: Trade, exitPrice: real): (pnl: real)
    ensures trade.quantity != 0.0 ==> pnl / trade.quantity == exitPrice - trade.entryPrice
    ensures exitPrice == trade.entryPrice || trade.quantity == 0.0 ==> pnl == 0.0
  {
    (exitPrice - trade.entryPrice) * trade.quantity
  }

  /** A target hit is a win whatever the PnL; otherwise the sign of the PnL decides. */
  function ClosureStatus(isWin: bool, pnl: real): (s: CloseStatus)
    ensures isWin <==> s == TargetHit
    ensures s == ProfitByStop <==> !isWin && pnl > 0.0
    ensures s == StopLoss <==> !isWin && pnl <= 0.0
  {
    if isWin then TargetHit
    else if pnl > 0.0 then ProfitByStop
    else StopLoss
  }

  /** The PnL as a percentage of the entry value, or 0 without a positive entry value. */
  function PnlPercent(pnl: real, entryValue: real): (p: real)
    ensures entryValue > 0.0 ==> p * entryValue == pnl * 100.0
    ensures entryValue <= 0.0 ==> p == 0.0
  {
    if entryValue > 0.0 then pnl / entryValue * 100.0 else 0.0
  }

  datatype Duration = Duration(days: nat, hours: nat, minutes: nat, seconds: nat)

  /** The `divmod` chain over the elapsed seconds. */
  function SplitDuration(total: nat): (d: Duration)
    ensures d.days * 86400 + d.hours * 3600 + d.minutes * 60 + d.seconds == total
    ensures d.hours < 24 && d.minutes < 60 && d.seconds < 60
  {
    var days, dayRest := total / 86400, total % 86400;
    var hours, hourRest := dayRest / 3600, dayRest % 3600;
    Duration(days, hours, hourRest / 60, hourRest % 60)
  }

  /** The split is the only one with those bounds. */
  lemma SplitDurationUnique(total: nat, d: Duration)
    requires d.days * 86400 + d.hours * 3600 + d.minutes * 60 + d.seconds == total
    requires d.hours < 24 && d.minutes < 60 && d.seconds < 60
    ensures d == SplitDuration(total)
  {
    var e := SplitDuration(total);
    var r1 := d.hours * 3600 + d.minutes * 60 + d.seconds;
    var r2 := e.hours * 3600 + e.minutes * 60 + e.seconds;
    assert r1 < 86400 && r2 < 86400;
    assert d.days == e.days;
    assert d.minutes * 60 + d.seconds < 3600 && e.minutes * 60 + e.seconds < 3600;
    assert d.hours == e.hours;
    assert d.minutes == e.minutes;
  }

  /** `duration_str`: days are shown only when there is at least one. */
  datatype DurationText = DaysHoursMinutes(days: nat, hours: nat, minutes: nat) | HoursMinutes(hours: nat, minutes: nat)

  function FormatDuration(d: Duration): (t: DurationText)
    ensures t.DaysHoursMinutes? <==> d.days > 0
    ensures t.hours == d.hours && t.minutes == d.minutes
    ensures t.DaysHoursMinutes? ==> t.days == d.days
  {
    if d.days > 0 then DaysHoursMinutes(d.days, d.hours, d.minutes) else HoursMinutes(d.hours, d.minutes)
  }

  /** The profit template (✅, "profit") or the loss template (❌, "loss"). */
  datatype Template = ProfitTemplate | LossTemplate

  datatype ClosureMessage = ClosureMessage(
    tradeId: nat,
    symbol: string,
    realTradeLabel: bool,
    template: Template,
    status: CloseStatus,
    pnl: real,
    pnlPercent: real,
    duration: DurationText)

  /**
   * Why no notification is built: comparing a NULL `entry_value_usdt` with 0
   * raises a `TypeError`.
   */
  datatype ClosureError = EntryValueIsNull

  /**
   * The notification for closing `trade` at `exitPrice` after
   * `elapsedSeconds`, or the error raised while building it.
   */
  function ClosureNotice(trade: Trade, exitPrice: real, isWin: bool, elapsedSeconds: nat): (m: Result<ClosureMessage, ClosureError>)
    ensures m.Err? <==> trade.entryValueUsdt.None?
    ensures m.Ok? ==> (m.value.template == ProfitTemplate <==> RealizedPnl(trade, exitPrice) >= 0.0)
    ensures m.Ok? ==> (m.value.realTradeLabel <==> trade.mode == Real)
    ensures m.Ok? ==> m.value.status == ClosureStatus(isWin, RealizedPnl(trade, exitPrice))
    ensures m.Ok? ==> m.value.tradeId == trade.id && m.value.pnl == RealizedPnl(trade, exitPrice)
    ensures m.Ok? ==> m.value.symbol == trade.symbol
    ensures m.Ok? ==> m.value.pnlPercent == PnlPercent(RealizedPnl(trade, exitPrice), trade.entryValueUsdt.value)
    ensures m.Ok? ==> m.value.duration == FormatDuration(SplitDuration(elapsedSeconds))
  {
    match trade.entryValueUsdt
    case None => Err(EntryValueIsNull)
    case Some(entryValue) =>
      var pnl := RealizedPnl(trade, exitPrice);
      Ok(ClosureMessage(
        trade.id, trade.symbol, trade.mode == Real,
        if pnl >= 0.0 then ProfitTemplate else LossTemplate,
        ClosureStatus(isWin, pnl), pnl, PnlPercent(pnl, entryValue),
        FormatDuration(SplitDuration(elapsedSeconds))))
  }

  /** The `close_trade_in_db` request. */
  datatype DbClose = DbClose(tradeId: nat, status: CloseStatus, exitPrice: real, pnlUsdt: real)

  /** The parts of the bot's state that closing a trade touches. */
  class BotState {
    var virtualPortfolioBalance: real
    var dbCloses: seq<DbClose>
    var settingsSaves: nat
    var outbox: seq<ClosureMessage>

    constructor (balance: real)
      ensures virtualPortfolioBalance == balance && dbCloses == [] && settingsSaves == 0 && outbox == []
    {
      virtualPortfolioBalance := balance;
      dbCloses, settingsSaves, outbox := [], 0, [];
    }

    /**
     * `process_trade_closure`; the wall-clock duration arrives as
     * `elapsedSeconds`. The trade table and the virtual balance are updated
     * before the notification is built, so a NULL entry value still closes
     * the trade and moves the balance, and then fails without a message.
     */
    method ProcessTradeClosure(trade: Trade, exitPrice: real, isWin: bool, elapsedSeconds: nat)
        returns (r: Outcome<ClosureError>)
      modifies this
      ensures var pnl := RealizedPnl(trade, exitPrice);
        && dbCloses == old(dbCloses) + [DbClose(trade.id, ClosureStatus(isWin, pnl), exitPrice, pnl)]
        && virtualPortfolioBalance == old(virtualPortfolioBalance) + (if trade.mode == Virtual then pnl else 0.0)
        && settingsSaves == old(settingsSaves) + (if trade.mode == Virtual then 1 else 0)
      ensures r.Fail? <==> trade.entryValueUsdt.None?
      ensures r.Fail? ==> outbox == old(outbox)
      ensures r.Pass? ==> outbox == old(outbox) + [ClosureNotice(trade, exitPrice, isWin, elapsedSeconds).value]
    {
      var pnl := RealizedPnl(trade, exitPrice);
      dbCloses := dbCloses + [DbClose(trade.id, ClosureStatus(isWin, pnl), exitPrice, pnl)];
      if trade.mode == Virtual {
        virtualPortfolioBalance := virtualPortfolioBalance + pnl;
        settingsSaves := settingsSaves + 1;
      }
      var notice := ClosureNotice(trade, exitPrice, isWin, elapsedSeconds);
      if notice.Err? {
        return Fail(notice.error);
      }
      outbox := outbox + [notice.value];
      r := Pass;
    }
  }

  // ---------------------------------------------------------------------------
  // Properties
  // ---------------------------------------------------------------------------

  /**
   * A stop exit above the entry of a long position (a raised trailing stop)
   * closes as a profit by stop, not as a loss.
   */
  lemma StopExitAboveEntryIsProfit(trade: Trade, exitPrice: real)
    requires trade.quantity > 0.0 && exitPrice > trade.entryPrice
    ensures ClosureStatus(false, RealizedPnl(trade, exitPrice)) == ProfitByStop
  {
    assert (exitPrice - trade.entryPrice) * trade.quantity > 0.0;
  }

  /** A stop exit at or below the entry closes as a stop loss. */
  lemma StopExitAtOrBelowEntryIsLoss(trade: Trade, exitPrice: real)
    requires trade.quantity > 0.0 && exitPrice <= trade.entryPrice
    ensures ClosureStatus(false, RealizedPnl(trade, exitPrice)) == StopLoss
  {
    assert (trade.entryPrice - exitPrice) * trade.quantity >= 0.0;
  }

  /**
   * A stop exit exactly at the entry is classified as a stop loss, yet the
   * notification uses the profit template.
   */
  lemma BreakEvenStopUsesProfitTemplate(trade: Trade, elapsedSeconds: nat)
    requires trade.entryValueUsdt.Some?
    ensures var m := ClosureNotice(trade, trade.entryPrice, false, elapsedSeconds);
      m.Ok? && m.value.status == StopLoss && m.value.template == ProfitTemplate
  {
  }

  /** A profit by stop is always announced with the profit template. */
  lemma ProfitByStopUsesProfitTemplate(trade: Trade, exitPrice: real, isWin: bool, elapsedSeconds: nat)
    requires ClosureNotice(trade, exitPrice, isWin, elapsedSeconds).Ok?
    requires ClosureNotice(trade, exitPrice, isWin, elapsedSeconds).value.status == ProfitByStop
    ensures ClosureNotice(trade, exitPrice, isWin, elapsedSeconds).value.template == ProfitTemplate
  {
  }

  /**
   * When the entry value is the entry price times the quantity, the PnL
   * percentage is the price return of the exit over the entry.
   */
  lemma PnlPercentIsPriceReturn(trade: Trade, exitPrice: real)
    requires trade.entryPrice > 0.0 && trade.quantity > 0.0
    requires trade.entryValueUsdt == Some(trade.entryPrice * trade.quantity)
    ensures PnlPercent(RealizedPnl(trade, exitPrice), trade.entryValueUsdt.value)
            == (exitPrice - trade.entryPrice) / trade.entryPrice * 100.0
  {
    var q := trade.quantity;
    var e := trade.entryPrice;
    var pnl := (exitPrice - e) * q;
    var p := PnlPercent(pnl, e * q);
    assert p * (e * q) == pnl * 100.0;
    assert (p * e - (exitPrice - e) * 100.0) * q == 0.0;
    assert p * e == (exitPrice - e) * 100.0;
  }

  /** The PnL percentage has the sign of the PnL when there is a positive entry value. */
  lemma PnlPercentSign(pnl: real, entryValue: real)
    requires entryValue > 0.0
    ensures PnlPercent(pnl, entryValue) > 0.0 <==> pnl > 0.0
    ensures PnlPercent(pnl, entryValue) == 0.0 <==> pnl == 0.0
  {
    var p := PnlPercent(pnl, entryValue);
    assert p * entryValue == pnl * 100.0;
    if p > 0.0 { assert p * entryValue > 0.0; }
    if p < 0.0 { assert p * entryValue < 0.0; }
  }

  /** Ninety thousand seconds are one day, one hour and no minutes, shown with the day. */
  lemma DurationExample()
    ensures SplitDuration(90000) == Duration(1, 1, 0, 0)
    ensures FormatDuration(SplitDuration(3725)) == HoursMinutes(1, 2)
  {
  }
}
