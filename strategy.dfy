/**
 * The trading strategy of src/controllers/stockprice.controller.js as pure
 * functions over a value that holds the controller's five module-level
 * variables. Every step of the evaluator is a function from the old value to
 * the new one; the class in module Controller is proved to follow them.
 *
 * The environment is made explicit: the price list that loadStockData would
 * return, the numbers Math.random would draw and the clocks Date.now would
 * read are inputs (see `Draw` and `Cycle`).
 */
module Strategy {
  import opened Wrappers

  // ---------------------------------------------------------------------
  // Policy constants
  // ---------------------------------------------------------------------

  /** Trades allowed per symbol and window. */
  const TRADE_LIMIT: int := 3
  /** Holding time, in ms, after which a position is sold regardless of price. */
  const HOLD_TIME_LIMIT: int := 2 * 60 * 1000
  /** Length, in ms, of a rate-limiter window. */
  const TRADE_WINDOW: int := 60 * 1000
  /** A draw below this fails the trade (a 10 % chance). */
  const FAILURE_CHANCE: real := 0.1
  /** Buy when the price is below this fraction of the last buy price. */
  const BUY_FACTOR: real := 0.98
  /** Sell when the price is above this multiple of the last buy price. */
  const SELL_FACTOR: real := 1.03
  const INITIAL_BALANCE: real := 1000.0

  // ---------------------------------------------------------------------
  // Data model
  // ---------------------------------------------------------------------

  /** A configured symbol and the data file its prices come from. */
  datatype Stock = Stock(name: string, dataFile: string)

  /** The fixed symbol list walked by every evaluation pass, in order. */
  const STOCKS: seq<Stock> := [
    Stock("AAPL", "Apple_MOCK_DATA.json"),
    Stock("TSLA", "Tesla_MOCK_DATA.json"),
    Stock("GOOGL", "Google_MOCK_DATA.json")
  ]

  /** A portfolio entry: shares held and the price of the most recent buy. */
  datatype Holding = Holding(quantity: int, buyPrice: real)

  /** A rate-limiter window: trades counted since `lastReset` (ms). */
  datatype Window = Window(count: int, lastReset: int)

  /** The controller's module-level variables. */
  datatype Snapshot = Snapshot(
    balance: real,
    portfolio: map<string, Holding>,
    profitLoss: real,
    tradeCounts: map<string, Window>,
    purchaseTimes: map<string, int>)

  /** What the status endpoint reports. */
  datatype Status = Status(balance: real, portfolio: map<string, Holding>, profitLoss: real)

  /** The state the process starts in. */
  const INITIAL: Snapshot := Snapshot(INITIAL_BALANCE, map[], 0.0, map[], map[])

  /**
   * What the environment supplies to the evaluation of one symbol:
   * the parsed price list (None when the file is missing or unreadable,
   * or `prices` is absent or not an array), the Math.random draw that picks
   * the price, the Date.now read by the buy check's canTrade and the draw of
   * its failure simulation, and the same two for the sell check.
   */
  datatype Draw = Draw(
    prices: Option<seq<real>>,
    priceRoll: real,
    buyClock: int,
    buyRoll: real,
    sellClock: int,
    sellRoll: real)

  /** Math.random returns a number in [0, 1). */
  predicate ValidDraw(d: Draw) {
    0.0 <= d.priceRoll < 1.0
  }

  /** The inputs of one evaluation pass: one draw per configured symbol and the pass's clock. */
  datatype Cycle = Cycle(draws: seq<Draw>, currentTime: int)

  predicate ValidCycle(c: Cycle) {
    |c.draws| == |STOCKS| && forall i :: 0 <= i < |c.draws| ==> ValidDraw(c.draws[i])
  }

  /** The outcome of one buy or sell check. */
  datatype Trade =
    | NoSignal   // the price, balance or quantity condition does not hold: canTrade is not consulted
    | Denied     // the condition holds but the rate limiter refuses
    | Missed     // admitted, but the simulated execution failed
    | Done       // executed

  /** What one per-symbol step did (the log line it prints). */
  datatype Action =
    | Skipped
    | ForcedSell(quantity: int, price: real)
    | Checked(price: real, buy: Trade, sell: Trade)

  datatype Phase = Phase(state: Snapshot, trade: Trade)

  datatype Outcome = Outcome(state: Snapshot, action: Action)

  /** Invariants every reachable state keeps. */
  predicate Consistent(s: Snapshot) {
    && (forall n :: n in s.portfolio ==> s.portfolio[n].quantity >= 0)
    && (forall n :: n in s.tradeCounts ==> 0 <= s.tradeCounts[n].count <= TRADE_LIMIT)
  }

  // ---------------------------------------------------------------------
  // PriceSource
  // ---------------------------------------------------------------------

  /** Math.floor(Math.random() * length). */
  function RandomIndex(roll: real, length: nat): (i: nat)
    requires 0.0 <= roll < 1.0
    requires length > 0
    ensures i < length
    ensures i as real <= roll * length as real < (i + 1) as real
  {
    var x := roll * length as real;
    assert 0.0 <= x < length as real;
    x.Floor
  }

  /** getRandomPrice: a price of the list, or None when there is no list or it is empty. */
  function GetRandomPrice(prices: Option<seq<real>>, roll: real): (r: Option<real>)
    requires 0.0 <= roll < 1.0
    ensures r.Some? <==> prices.Some? && |prices.value| > 0
    ensures r.Some? ==> r.value in prices.value
  {
    if prices.None? || |prices.value| == 0 then None
    else Some(prices.value[RandomIndex(roll, |prices.value|)])
  }

  /** shouldFailTrade, given the number Math.random would draw. */
  predicate ShouldFailTrade(roll: real) {
    roll < FAILURE_CHANCE
  }

  // ---------------------------------------------------------------------
  // HoldTimer
  // ---------------------------------------------------------------------

  /**
   * checkTimeBasedConstraints: a purchase time is recorded, is not 0 (a 0
   * is falsy in the source's test), and more than HOLD_TIME_LIMIT ms have
   * passed since it.
   */
  function CheckTimeBasedConstraints(times: map<string, int>, name: string, currentTime: int): (overdue: bool)
    ensures name !in times ==> !overdue
    ensures overdue ==> name in times && currentTime > times[name] + HOLD_TIME_LIMIT
  {
    name in times && times[name] != 0 && currentTime - times[name] > HOLD_TIME_LIMIT
  }

  // ---------------------------------------------------------------------
  // TradeLimiter
  // ---------------------------------------------------------------------

  /**
   * The side effect of canTrade on the windows: create `{0, now}` for an
   * unknown symbol, then start a new window when the current one is more
   * than TRADE_WINDOW ms old.
   */
  function Refresh(windows: map<string, Window>, name: string, now: int): (r: map<string, Window>)
    ensures r.Keys == windows.Keys + {name}
    ensures forall n :: n in windows && n != name ==> r[n] == windows[n]
    ensures name !in windows ==> r[name] == Window(0, now)
    ensures name in windows && now - windows[name].lastReset > TRADE_WINDOW ==> r[name] == Window(0, now)
    ensures name in windows && now - windows[name].lastReset <= TRADE_WINDOW ==> r[name] == windows[name]
    ensures now - r[name].lastReset <= TRADE_WINDOW
    ensures Allowed(r, name) <==>
      name !in windows || now - windows[name].lastReset > TRADE_WINDOW || windows[name].count < TRADE_LIMIT
  {
    var w := if name in windows then windows[name] else Window(0, now);
    windows[name := if now - w.lastReset > TRADE_WINDOW then Window(0, now) else w]
  }

  /** The value canTrade returns once the window is refreshed. */
  predicate Allowed(windows: map<string, Window>, name: string) {
    name in windows && windows[name].count < TRADE_LIMIT
  }

  /** `tradeCounts[name].count++`. */
  function RecordTrade(windows: map<string, Window>, name: string): (r: map<string, Window>)
    requires name in windows
    ensures r.Keys == windows.Keys
    ensures r[name] == Window(windows[name].count + 1, windows[name].lastReset)
    ensures forall n :: n in windows && n != name ==> r[n] == windows[n]
  {
    windows[name := windows[name].(count := windows[name].count + 1)]
  }

  // ---------------------------------------------------------------------
  // StrategyEngine
  // ---------------------------------------------------------------------

  /** `portfolio[name] || { quantity: 0, buyPrice: 0 }`. */
  function HoldingOf(portfolio: map<string, Holding>, name: string): (h: Holding)
    ensures name in portfolio ==> h == portfolio[name]
    ensures name !in portfolio ==> h == Holding(0, 0.0)
    ensures (forall n :: n in portfolio ==> portfolio[n].quantity >= 0) ==> h.quantity >= 0
  {
    if name in portfolio then portfolio[name] else Holding(0, 0.0)
  }

  /**
   * The buy check. `canTrade` is consulted, and so refreshes the window,
   * only when the price and balance conditions hold (short-circuit `&&`).
   */
  function BuyPhase(s: Snapshot, name: string, price: real, currentTime: int, clock: int, roll: real): (r: Phase)
    ensures r.trade != NoSignal <==>
      price < HoldingOf(s.portfolio, name).buyPrice * BUY_FACTOR && s.balance >= price
    ensures r.trade == NoSignal ==> r.state == s
    ensures r.trade == Denied <==>
      r.trade != NoSignal && !Allowed(Refresh(s.tradeCounts, name, clock), name)
    ensures r.trade == Missed <==>
      r.trade != NoSignal && Allowed(Refresh(s.tradeCounts, name, clock), name) && ShouldFailTrade(roll)
    ensures r.trade == Denied || r.trade == Missed ==>
      r.state == s.(tradeCounts := Refresh(s.tradeCounts, name, clock))
    ensures r.trade == Done ==>
      var h := HoldingOf(s.portfolio, name);
      var w := Refresh(s.tradeCounts, name, clock)[name];
      && r.state.portfolio == s.portfolio[name := Holding(h.quantity + 1, price)]
      && r.state.balance == s.balance - price
      && r.state.balance >= 0.0
      && r.state.profitLoss == s.profitLoss
      && r.state.purchaseTimes == s.purchaseTimes[name := currentTime]
      && r.state.tradeCounts == Refresh(s.tradeCounts, name, clock)[name := Window(w.count + 1, w.lastReset)]
      && w.count + 1 <= TRADE_LIMIT
    ensures r.state.portfolio - {name} == s.portfolio - {name}
    ensures r.state.tradeCounts - {name} == s.tradeCounts - {name}
    ensures r.state.purchaseTimes - {name} == s.purchaseTimes - {name}
    ensures Consistent(s) ==> Consistent(r.state)
  {
    var h := HoldingOf(s.portfolio, name);
    if price < h.buyPrice * BUY_FACTOR && s.balance >= price then
      var windows := Refresh(s.tradeCounts, name, clock);
      if !Allowed(windows, name) then Phase(s.(tradeCounts := windows), Denied)
      else if ShouldFailTrade(roll) then Phase(s.(tradeCounts := windows), Missed)
      else
        Phase(Snapshot(
                s.balance - price,
                s.portfolio[name := Holding(h.quantity + 1, price)],
                s.profitLoss,
                RecordTrade(windows, name),
                s.purchaseTimes[name := currentTime]),
              Done)
    else Phase(s, NoSignal)
  }

  /**
   * The sell check. It reads the holding as the buy check left it; a sale
   * only happens for a held quantity, so it always updates an existing entry
   * and never deletes it, even when the quantity drops to 0.
   */
  function SellPhase(s: Snapshot, name: string, price: real, clock: int, roll: real): (r: Phase)
    ensures r.trade != NoSignal <==>
      price > HoldingOf(s.portfolio, name).buyPrice * SELL_FACTOR && HoldingOf(s.portfolio, name).quantity > 0
    ensures r.trade == NoSignal ==> r.state == s
    ensures r.trade == Denied <==>
      r.trade != NoSignal && !Allowed(Refresh(s.tradeCounts, name, clock), name)
    ensures r.trade == Missed <==>
      r.trade != NoSignal && Allowed(Refresh(s.tradeCounts, name, clock), name) && ShouldFailTrade(roll)
    ensures r.trade == Denied || r.trade == Missed ==>
      r.state == s.(tradeCounts := Refresh(s.tradeCounts, name, clock))
    ensures r.trade == Done ==>
      var h := HoldingOf(s.portfolio, name);
      var w := Refresh(s.tradeCounts, name, clock)[name];
      && name in s.portfolio
      && name in r.state.portfolio
      && r.state.portfolio == s.portfolio[name := Holding(h.quantity - 1, h.buyPrice)]
      && r.state.balance == s.balance + price
      && r.state.profitLoss == s.profitLoss + (price - h.buyPrice)
      && r.state.purchaseTimes == s.purchaseTimes
      && r.state.tradeCounts == Refresh(s.tradeCounts, name, clock)[name := Window(w.count + 1, w.lastReset)]
      && w.count + 1 <= TRADE_LIMIT
    ensures r.state.portfolio - {name} == s.portfolio - {name}
    ensures r.state.tradeCounts - {name} == s.tradeCounts - {name}
    ensures r.state.purchaseTimes - {name} == s.purchaseTimes - {name}
    ensures Consistent(s) ==> Consistent(r.state)
  {
    var h := HoldingOf(s.portfolio, name);
    if price > h.buyPrice * SELL_FACTOR && h.quantity > 0 then
      var windows := Refresh(s.tradeCounts, name, clock);
      if !Allowed(windows, name) then Phase(s.(tradeCounts := windows), Denied)
      else if ShouldFailTrade(roll) then Phase(s.(tradeCounts := windows), Missed)
      else
        Phase(s.(balance := s.balance + price,
                 portfolio := s.portfolio[name := Holding(h.quantity - 1, h.buyPrice)],
                 profitLoss := s.profitLoss + (price - h.buyPrice),
                 tradeCounts := RecordTrade(windows, name)),
              Done)
    else Phase(s, NoSignal)
  }

  /**
   * The forced sale of a position held too long: every share is sold at
   * `price`, the portfolio entry is deleted and the purchase time is kept.
   */
  function ForcedSale(s: Snapshot, name: string, price: real): (r: Outcome)
    ensures var h := HoldingOf(s.portfolio, name);
      && r.action == ForcedSell(h.quantity, price)
      && r.state.balance == s.balance + price * h.quantity as real
      && r.state.profitLoss == s.profitLoss + (price - h.buyPrice) * h.quantity as real
      && r.state.portfolio == s.portfolio - {name}
      && name !in r.state.portfolio
      && r.state.purchaseTimes == s.purchaseTimes
      && r.state.tradeCounts == s.tradeCounts
    ensures Consistent(s) ==> Consistent(r.state)
  {
    var h := HoldingOf(s.portfolio, name);
    Outcome(s.(balance := s.balance + price * h.quantity as real,
               profitLoss := s.profitLoss + (price - h.buyPrice) * h.quantity as real,
               portfolio := s.portfolio - {name}),
            ForcedSell(h.quantity, price))
  }

  /**
   * The buy check followed by the sell check, the sell check seeing the
   * holding the buy check left. For a positive price at most one of them
   * finds its condition true, so at most one trade happens.
   */
  function Decide(s: Snapshot, name: string, price: real, d: Draw, currentTime: int): (r: Outcome)
    ensures r.action.Checked? && r.action.price == price
    ensures price > 0.0 && r.action.buy != NoSignal ==> r.action.sell == NoSignal
    ensures r.state.portfolio - {name} == s.portfolio - {name}
    ensures r.state.tradeCounts - {name} == s.tradeCounts - {name}
    ensures r.state.purchaseTimes - {name} == s.purchaseTimes - {name}
    ensures Consistent(s) ==> Consistent(r.state)
  {
    var bought := BuyPhase(s, name, price, currentTime, d.buyClock, d.buyRoll);
    var sold := SellPhase(bought.state, name, price, d.sellClock, d.sellRoll);
    Outcome(sold.state, Checked(price, bought.trade, sold.trade))
  }

  /**
   * One iteration of the evaluator's loop body for symbol `name`: skip on
   * missing data or a zero price, else a forced sale when the hold timer
   * expired, else the buy check followed by the sell check.
   */
  function Step(s: Snapshot, name: string, d: Draw, currentTime: int): (r: Outcome)
    requires ValidDraw(d)
    ensures var sampled := GetRandomPrice(d.prices, d.priceRoll);
      && (r.action.Skipped? <==> sampled.None? || sampled.value == 0.0)
      && (!r.action.Skipped? ==> sampled == Some(r.action.price))
    ensures r.action.Skipped? ==> r.state == s
    ensures r.action.ForcedSell? <==>
      !r.action.Skipped? && CheckTimeBasedConstraints(s.purchaseTimes, name, currentTime)
    ensures r.action.ForcedSell? ==> r == ForcedSale(s, name, r.action.price)
    ensures r.action.Checked? ==> r == Decide(s, name, r.action.price, d, currentTime)
    ensures r.state.portfolio - {name} == s.portfolio - {name}
    ensures r.state.tradeCounts - {name} == s.tradeCounts - {name}
    ensures r.state.purchaseTimes - {name} == s.purchaseTimes - {name}
    ensures Consistent(s) ==> Consistent(r.state)
  {
    var sampled := GetRandomPrice(d.prices, d.priceRoll);
    if sampled.None? || sampled.value == 0.0 then Outcome(s, Skipped)
    else if CheckTimeBasedConstraints(s.purchaseTimes, name, currentTime) then
      ForcedSale(s, name, sampled.value)
    else
      Decide(s, name, sampled.value, d, currentTime)
  }

  /** The state after the first `k` symbols of one evaluation pass. */
  function Pass(s: Snapshot, c: Cycle, k: nat): (r: Snapshot)
    requires ValidCycle(c) && k <= |STOCKS|
    ensures Consistent(s) ==> Consistent(r)
    decreases k
  {
    if k == 0 then s
    else Step(Pass(s, c, k - 1), STOCKS[k - 1].name, c.draws[k - 1], c.currentTime).state
  }

  /** checkTradingStrategy: one full pass over the configured symbols. */
  function Evaluate(s: Snapshot, c: Cycle): (r: Snapshot)
    requires ValidCycle(c)
    ensures Consistent(s) ==> Consistent(r)
  {
    Pass(s, c, |STOCKS|)
  }

  /** Consecutive passes, as the 5-second interval timer runs them. */
  function Run(s: Snapshot, cycles: seq<Cycle>): (r: Snapshot)
    requires forall i :: 0 <= i < |cycles| ==> ValidCycle(cycles[i])
    ensures Consistent(s) ==> Consistent(r)
    decreases |cycles|
  {
    if cycles == [] then s
    else Evaluate(Run(s, cycles[..|cycles| - 1]), cycles[|cycles| - 1])
  }

  // ---------------------------------------------------------------------
  // StatusReporter
  // ---------------------------------------------------------------------

  /** getStockStatus: the balance, portfolio and profit/loss, read only. */
  function StatusOf(s: Snapshot): (st: Status) {
    Status(s.balance, s.portfolio, s.profitLoss)
  }
}
