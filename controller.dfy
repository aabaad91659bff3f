/**
 * The controller's module-level state as an object whose methods update it
 * in place, in the order the source does, each proved to produce the state
 * the corresponding function of module Strategy describes.
 */
module Controller {
  import opened Strategy

  class TradingState {
    var balance: real
    var portfolio: map<string, Holding>
    var profitLoss: real
    var tradeCounts: map<string, Window>
    var stockPurchaseTimes: map<string, int>

    /** The five variables as one value. */
    function Current(): (s: Snapshot)
      reads this
    {
      Snapshot(balance, portfolio, profitLoss, tradeCounts, stockPurchaseTimes)
    }

    /** Share counts are never negative and no window counts more than TRADE_LIMIT trades. */
    ghost predicate Valid()
      reads this
    {
      Consistent(Current())
    }

    /** Balance 1000, nothing held, no profit or loss, no windows and no purchase times. */
    constructor ()
      ensures Valid()
      ensures Current() == INITIAL
    {
      balance := INITIAL_BALANCE;
      portfolio := map[];
      profitLoss := 0.0;
      tradeCounts := map[];
      stockPurchaseTimes := map[];
    }

    /** canTrade: refresh the symbol's window at time `now`, then admit while fewer than 3 trades are counted. */
    method CanTrade(name: string, now: int) returns (ok: bool)
      requires Valid()
      modifies this`tradeCounts
      ensures Valid()
      ensures tradeCounts == Refresh(old(tradeCounts), name, now)
      ensures name in tradeCounts && now - tradeCounts[name].lastReset <= TRADE_WINDOW
      ensures ok <==> tradeCounts[name].count < TRADE_LIMIT
    {
      if name !in tradeCounts {
        tradeCounts := tradeCounts[name := Window(0, now)];
      }
      if now - tradeCounts[name].lastReset > TRADE_WINDOW {
        tradeCounts := tradeCounts[name := Window(0, now)];
      }
      ok := tradeCounts[name].count < TRADE_LIMIT;
    }

    /**
     * Lines of the loop body that buy one share when the price dropped 2 %.
     * `stockHolding` is the symbol's portfolio entry (or the zero default);
     * the returned holding is that entry afterwards.
     */
    method BuyCheck(name: string, stockHolding: Holding, price: real, currentTime: int, clock: int, roll: real)
      returns (held: Holding)
      requires stockHolding == HoldingOf(portfolio, name)
      requires Valid()
      modifies this
      ensures Valid()
      ensures Current() == BuyPhase(old(Current()), name, price, currentTime, clock, roll).state
      ensures held == HoldingOf(portfolio, name)
    {
      held := stockHolding;
      if price < held.buyPrice * BUY_FACTOR && balance >= price {
        var admitted := CanTrade(name, clock);
        if admitted && !ShouldFailTrade(roll) {
          held := Holding(held.quantity + 1, price);
          balance := balance - price;
          portfolio := portfolio[name := held];
          stockPurchaseTimes := stockPurchaseTimes[name := currentTime];
          tradeCounts := RecordTrade(tradeCounts, name);
        }
      }
    }

    /**
     * Lines of the loop body that sell one share when the price rose 3 %.
     * The share count is decremented in the portfolio's own entry, which
     * stays in the portfolio.
     */
    method SellCheck(name: string, stockHolding: Holding, price: real, clock: int, roll: real)
      requires stockHolding == HoldingOf(portfolio, name)
      requires Valid()
      modifies this
      ensures Valid()
      ensures Current() == SellPhase(old(Current()), name, price, clock, roll).state
    {
      var held := stockHolding;
      if price > held.buyPrice * SELL_FACTOR && held.quantity > 0 {
        var admitted := CanTrade(name, clock);
        if admitted && !ShouldFailTrade(roll) {
          held := Holding(held.quantity - 1, held.buyPrice);
          balance := balance + price;
          profitLoss := profitLoss + (price - held.buyPrice);
          portfolio := portfolio[name := held];
          tradeCounts := RecordTrade(tradeCounts, name);
        }
      }
    }

    /** One iteration of the evaluator's loop body, for `stock`. */
    method StepSymbol(stock: Stock, d: Draw, currentTime: int)
      requires ValidDraw(d)
      requires Valid()
      modifies this
      ensures Valid()
      ensures Current() == Step(old(Current()), stock.name, d, currentTime).state
    {
      var currentPrice := GetRandomPrice(d.prices, d.priceRoll);
      if currentPrice.None? || currentPrice.value == 0.0 {
        return;
      }
      var price := currentPrice.value;
      var stockHolding := HoldingOf(portfolio, stock.name);

      if CheckTimeBasedConstraints(stockPurchaseTimes, stock.name, currentTime) {
        balance := balance + price * stockHolding.quantity as real;
        profitLoss := profitLoss + (price - stockHolding.buyPrice) * stockHolding.quantity as real;
        portfolio := portfolio - {stock.name};
        return;
      }

      stockHolding := BuyCheck(stock.name, stockHolding, price, currentTime, d.buyClock, d.buyRoll);
      SellCheck(stock.name, stockHolding, price, d.sellClock, d.sellRoll);
    }

    /** checkTradingStrategy: one pass over the configured symbols, in order, at the pass's clock. */
    method CheckTradingStrategy(c: Cycle)
      requires ValidCycle(c)
      requires Valid()
      modifies this
      ensures Valid()
      ensures Current() == Evaluate(old(Current()), c)
    {
      var i := 0;
      while i < |STOCKS|
        invariant 0 <= i <= |STOCKS|
        invariant Current() == Pass(old(Current()), c, i)
        invariant Valid()
      {
        StepSymbol(STOCKS[i], c.draws[i], c.currentTime);
        i := i + 1;
      }
    }

    /** runTradingLogic: the passes the interval timer fires, in order. */
    method RunTradingLogic(cycles: seq<Cycle>)
      requires forall i :: 0 <= i < |cycles| ==> ValidCycle(cycles[i])
      requires Valid()
      modifies this
      ensures Valid()
      ensures Current() == Run(old(Current()), cycles)
    {
      var i := 0;
      while i < |cycles|
        invariant 0 <= i <= |cycles|
        invariant Current() == Run(old(Current()), cycles[..i])
        invariant Valid()
      {
        CheckTradingStrategy(cycles[i]);
        assert cycles[..i + 1][..i] == cycles[..i];
        i := i + 1;
      }
      assert cycles[..i] == cycles;
    }

    /** getStockStatus: the balance, portfolio and profit/loss as they stand; nothing changes. */
    method GetStockStatus() returns (st: Status)
      ensures st == StatusOf(Current())
    {
      st := Status(balance, portfolio, profitLoss);
    }
  }
}
