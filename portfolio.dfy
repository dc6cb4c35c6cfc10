/**
 * `calculate_full_portfolio` (exchanges.py:218-250): value every held asset
 * in USDT, keep those worth more than one USDT, total them and list them by
 * value, largest first. Tickers are cached on the client for 60 seconds.
 */
module Portfolio {
  import opened Wrappers
  import opened Exchanges
  import Sorting

  datatype Asset = Asset(currency: string, amount: real, usdtValue: real)

  datatype Report = Report(totalUsdt: real, assets: seq<Asset>)

  /** How long fetched tickers are reused, in seconds. */
  const TickerCacheSeconds: real := 60.0

  /**
   * USDT counts one to one; anything else is worth `amount * last` of its
   * "X/USDT" ticker, or nothing when that ticker or its price is missing
   * (a zero `last` is falsy and also counts as missing).
   */
  function UsdtValue(currency: string, amount: real, tickers: map<string, Ticker>): (v: real)
    ensures currency == "USDT" ==> v == amount
    ensures currency != "USDT" && currency + "/USDT" in tickers && tickers[currency + "/USDT"].last.Some? ==>
      v == amount * tickers[currency + "/USDT"].last.value
    ensures currency != "USDT" && (currency + "/USDT" !in tickers || tickers[currency + "/USDT"].last.None?) ==> v == 0.0
  {
    if currency == "USDT" then amount
    else
      var pair := currency + "/USDT";
      if pair in tickers && tickers[pair].last.Some? && tickers[pair].last.value != 0.0 then
        amount * tickers[pair].last.value
      else 0.0
  }

  /** Whether a balance entry makes it into the report. */
  predicate Included(currency: string, amount: real, tickers: map<string, Ticker>)
    ensures Included(currency, amount, tickers) <==> (amount > 0.0 &&
      if currency == "USDT" then amount > 1.0
      else
        var pair := currency + "/USDT";
        && pair in tickers && tickers[pair].last.Some? && tickers[pair].last.value != 0.0
        && amount * tickers[pair].last.value > 1.0)
  {
    amount > 0.0 && UsdtValue(currency, amount, tickers) > 1.0
  }

  /** The included assets, in balance order. */
  function Holdings(balances: seq<(string, real)>, tickers: map<string, Ticker>): seq<Asset>
  {
    if balances == [] then []
    else
      var (c, a) := balances[|balances| - 1];
      Holdings(balances[..|balances| - 1], tickers)
        + (if Included(c, a, tickers) then [Asset(c, a, UsdtValue(c, a, tickers))] else [])
  }

  function TotalValue(assets: seq<Asset>): real
  {
    if assets == [] then 0.0 else TotalValue(assets[..|assets| - 1]) + assets[|assets| - 1].usdtValue
  }

  /** The ordering key of `sort(key=usdt_value, reverse=True)`. */
  function Descending(a: Asset): real
  {
    -a.usdtValue
  }

  /** The balance loop: filter and value the assets, accumulating the total. */
  method ValueAssets(balances: seq<(string, real)>, tickers: map<string, Ticker>)
    returns (assets: seq<Asset>, total: real)
    ensures assets == Holdings(balances, tickers)
    ensures total == TotalValue(assets)
  {
    assets, total := [], 0.0;
    var i := 0;
    while i < |balances|
      invariant 0 <= i <= |balances|
      invariant assets == Holdings(balances[..i], tickers)
      invariant total == TotalValue(assets)
    {
      var (currency, amount) := balances[i];
      assert balances[..i + 1][..i] == balances[..i];
      if amount > 0.0 {
        var value := UsdtValue(currency, amount, tickers);
        if value > 1.0 {
          assets := assets + [Asset(currency, amount, value)];
          total := total + value;
        }
      }
      i := i + 1;
    }
    assert balances[..i] == balances;
  }

  /**
   * `exchange` may be absent. `balances` is the `total` part of
   * `fetch_balance` in dictionary order, None when the call raised;
   * `fetchedTickers` is what `fetch_tickers` would return, None when it raises;
   * `now` is the clock when the cache age is tested and `fetchedAt` the clock
   * once `fetch_tickers` has returned.
   */
  method CalculateFullPortfolio(exchange: Exchange?, now: real, fetchedAt: real,
                                balances: Option<seq<(string, real)>>,
                                fetchedTickers: Option<map<string, Ticker>>)
    returns (report: Report)
    modifies exchange
    ensures exchange == null || exchange.apiKey == "" ==> report == Report(0.0, [])
    ensures exchange != null && exchange.apiKey == "" ==> unchanged(exchange)
    ensures exchange != null ==>
      && exchange.orders == old(exchange.orders) && exchange.live == old(exchange.live)
      && exchange.nextOrderId == old(exchange.nextOrderId) && exchange.callCount == old(exchange.callCount)
    ensures exchange != null && exchange.apiKey != "" ==>
      var refresh := old(exchange.tickersCache).None? || now - old(exchange.tickersCacheTime) > TickerCacheSeconds;
      && (balances.None? || (refresh && fetchedTickers.None?) ==>
            report == Report(0.0, []) && unchanged(exchange))
      && (balances.Some? && refresh && fetchedTickers.Some? ==>
            exchange.tickersCache == fetchedTickers && exchange.tickersCacheTime == fetchedAt)
      && (balances.Some? && !refresh ==> unchanged(exchange))
      && (balances.Some? && (!refresh || fetchedTickers.Some?) ==>
            var tickers := if refresh then fetchedTickers.value else old(exchange.tickersCache).value;
            var held := Holdings(balances.value, tickers);
            && multiset(report.assets) == multiset(held)
            && Sorting.SortedBy(report.assets, Descending)
            && (forall v :: Sorting.WithKey(report.assets, Descending, v) == Sorting.WithKey(held, Descending, v))
            && report.totalUsdt == TotalValue(held))
  {
    if exchange == null || exchange.apiKey == "" {
      return Report(0.0, []);
    }
    if balances.None? {
      return Report(0.0, []);
    }
    if exchange.tickersCache.None? || now - exchange.tickersCacheTime > TickerCacheSeconds {
      if fetchedTickers.None? {
        return Report(0.0, []);
      }
      exchange.tickersCache := fetchedTickers;
      exchange.tickersCacheTime := fetchedAt;
    }
    var tickers := exchange.tickersCache.value;
    var assets, total := ValueAssets(balances.value, tickers);
    forall v ensures Sorting.WithKey(Sorting.Sort(assets, Descending), Descending, v) == Sorting.WithKey(assets, Descending, v) {
      Sorting.SortStable(assets, Descending, v);
    }
    report := Report(total, Sorting.Sort(assets, Descending));
  }

  // ---------------------------------------------------------------------------
  // Properties
  // ---------------------------------------------------------------------------

  /** An asset is reported iff some balance entry holds a positive amount worth more than one USDT. */
  lemma {:induction false} HoldingsMembership(balances: seq<(string, real)>, tickers: map<string, Ticker>, a: Asset)
    ensures a in Holdings(balances, tickers) <==>
      exists i :: 0 <= i < |balances| && balances[i] == (a.currency, a.amount)
        && Included(a.currency, a.amount, tickers) && a.usdtValue == UsdtValue(a.currency, a.amount, tickers)
  {
    if balances != [] {
      var init := balances[..|balances| - 1];
      HoldingsMembership(init, tickers, a);
      assert forall i :: 0 <= i < |init| ==> init[i] == balances[i];
      var (c, am) := balances[|balances| - 1];
      var tail := if Included(c, am, tickers) then [Asset(c, am, UsdtValue(c, am, tickers))] else [];
      assert Holdings(balances, tickers) == Holdings(init, tickers) + tail;
      if a in tail {
        assert balances[|balances| - 1] == (a.currency, a.amount);
      }
    }
  }

  /** Every reported value exceeds one USDT, so the total of a non-empty report does too. */
  lemma {:induction false} HoldingsWorthMoreThanOne(balances: seq<(string, real)>, tickers: map<string, Ticker>)
    ensures forall k :: 0 <= k < |Holdings(balances, tickers)| ==> Holdings(balances, tickers)[k].usdtValue > 1.0
    ensures TotalValue(Holdings(balances, tickers)) >= |Holdings(balances, tickers)| as real
  {
    if balances != [] {
      var init := balances[..|balances| - 1];
      HoldingsWorthMoreThanOne(init, tickers);
      var (c, am) := balances[|balances| - 1];
      var tail := if Included(c, am, tickers) then [Asset(c, am, UsdtValue(c, am, tickers))] else [];
      assert Holdings(balances, tickers) == Holdings(init, tickers) + tail;
      TotalValueAppend(Holdings(init, tickers), tail);
      if tail != [] {
        assert tail[..0] == [];
      }
    }
  }

  lemma {:induction false} TotalValueAppend(xs: seq<Asset>, ys: seq<Asset>)
    ensures TotalValue(xs + ys) == TotalValue(xs) + TotalValue(ys)
  {
    if ys == [] {
      assert xs + ys == xs;
    } else {
      assert (xs + ys)[..|xs + ys| - 1] == xs + ys[..|ys| - 1];
      TotalValueAppend(xs, ys[..|ys| - 1]);
    }
  }

  /** Taking one asset out of a list lowers its total by that asset's value. */
  lemma TotalValueRemove(ys: seq<Asset>, j: nat)
    requires j < |ys|
    ensures TotalValue(ys) == TotalValue(ys[..j] + ys[j + 1..]) + ys[j].usdtValue
  {
    var before, x, after := ys[..j], ys[j], ys[j + 1..];
    assert ys == (before + [x]) + after;
    assert (before + [x])[..|before|] == before;
    TotalValueAppend(before + [x], after);
    TotalValueAppend(before, after);
  }

  /** Taking the j-th element out of a list removes one copy of it from the list's multiset. */
  lemma MultisetWithout(ys: seq<Asset>, j: nat)
    requires j < |ys|
    ensures multiset(ys[..j] + ys[j + 1..]) == multiset(ys) - multiset{ys[j]}
  {
    var before, after := ys[..j], ys[j + 1..];
    assert ys == before + [ys[j]] + after;
    assert multiset(ys) == multiset(before) + multiset{ys[j]} + multiset(after);
  }

  /** Reordering the assets does not change their total. */
  lemma {:induction false} TotalValuePermutation(xs: seq<Asset>, ys: seq<Asset>)
    requires multiset(xs) == multiset(ys)
    ensures TotalValue(xs) == TotalValue(ys)
    decreases |xs|
  {
    if xs != [] {
      var n := |xs|;
      var last := xs[n - 1];
      assert last in multiset(ys);
      var j :| 0 <= j < |ys| && ys[j] == last;
      MultisetWithout(xs, n - 1);
      assert xs[..n - 1] + xs[n..] == xs[..n - 1];
      MultisetWithout(ys, j);
      TotalValuePermutation(xs[..n - 1], ys[..j] + ys[j + 1..]);
      TotalValueRemove(ys, j);
    }
  }

  /**
   * The reported total is the sum of the reported values whatever order they
   * are listed in, and the list runs from the largest value down.
   */
  lemma ReportTotalsItsAssets(balances: seq<(string, real)>, tickers: map<string, Ticker>)
    ensures var held := Holdings(balances, tickers);
      var listed := Sorting.Sort(held, Descending);
      && TotalValue(listed) == TotalValue(held)
      && forall i, j :: 0 <= i < j < |listed| ==> listed[i].usdtValue >= listed[j].usdtValue
  {
    var held := Holdings(balances, tickers);
    var listed := Sorting.Sort(held, Descending);
    TotalValuePermutation(listed, held);
    forall i, j | 0 <= i < j < |listed| ensures listed[i].usdtValue >= listed[j].usdtValue {
      assert Descending(listed[i]) <= Descending(listed[j]);
    }
  }

  /**
   * Assets of equal value stay in balance order, as Python's stable sort
   * keeps them: USDT listed before XRP when both are worth 5 USDT.
   */
  lemma TiedAssetsKeepBalanceOrder()
    ensures var usdt, xrp := Asset("USDT", 5.0, 5.0), Asset("XRP", 10.0, 5.0);
      Sorting.Sort([usdt, xrp], Descending) == [usdt, xrp]
  {
    var usdt, xrp := Asset("USDT", 5.0, 5.0), Asset("XRP", 10.0, 5.0);
    assert [usdt, xrp][..1] == [usdt];
    assert [usdt][..0] == [];
  }
}
