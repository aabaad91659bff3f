/**
 * Properties of the strategy that relate several steps or passes.
 */
module StrategyProperties {
  import opened Wrappers
  import opened Strategy

  // ---------------------------------------------------------------------
  // PriceSource
  // ---------------------------------------------------------------------

  /**
   * Flooring `roll * n` picks index `i` exactly for the draws in
   * [i/n, (i+1)/n), each a valid draw.
   */
  lemma IndexOwnsInterval(roll: real, n: nat, i: nat)
    requires n > 0 && i < n
    requires i as real / n as real <= roll < (i + 1) as real / n as real
    ensures 0.0 <= roll < 1.0
    ensures RandomIndex(roll, n) == i
  {
    assert i as real <= roll * n as real < (i + 1) as real;
  }

  /**
   * Every price of a non-empty list is the one sampled for every draw in
   * [i/n, (i+1)/n), and each of those draws is valid.
   */
  lemma EveryPriceReachable(prices: seq<real>, i: nat, roll: real)
    requires i < |prices|
    requires i as real / |prices| as real <= roll < (i + 1) as real / |prices| as real
    ensures 0.0 <= roll < 1.0 && GetRandomPrice(Some(prices), roll) == Some(prices[i])
  {
    IndexOwnsInterval(roll, |prices|, i);
  }

  // ---------------------------------------------------------------------
  // HoldTimer
  // ---------------------------------------------------------------------

  /**
   * A never-bought symbol is never overdue; a bought one becomes overdue
   * strictly after HOLD_TIME_LIMIT ms, and stays overdue as the clock advances.
   */
  lemma HoldTimerThreshold(times: map<string, int>, name: string, t: int, later: int)
    requires t <= later
    ensures name !in times ==> !CheckTimeBasedConstraints(times, name, t)
    ensures name in times && times[name] != 0 ==>
      && !CheckTimeBasedConstraints(times, name, times[name] + HOLD_TIME_LIMIT)
      && CheckTimeBasedConstraints(times, name, times[name] + HOLD_TIME_LIMIT + 1)
    ensures CheckTimeBasedConstraints(times, name, t) ==> CheckTimeBasedConstraints(times, name, later)
  {
  }

  // ---------------------------------------------------------------------
  // TradeLimiter
  // ---------------------------------------------------------------------

  /**
   * Three trades recorded for a fresh symbol within one window, each after an
   * admitting canTrade, leave the window full: a fourth canTrade no later than
   * TRADE_WINDOW ms after the first is refused.
   */
  lemma FourthTradeDenied(w0: map<string, Window>, name: string, t0: int, t1: int, t2: int, t3: int)
    requires name !in w0
    requires t0 <= t1 <= t2 <= t3 <= t0 + TRADE_WINDOW
    ensures var w1 := RecordTrade(Refresh(w0, name, t0), name);
      var w2 := RecordTrade(Refresh(w1, name, t1), name);
      var w3 := RecordTrade(Refresh(w2, name, t2), name);
      && Allowed(Refresh(w0, name, t0), name)
      && Allowed(Refresh(w1, name, t1), name)
      && Allowed(Refresh(w2, name, t2), name)
      && w3[name] == Window(TRADE_LIMIT, t0)
      && !Allowed(Refresh(w3, name, t3), name)
  {
    var w1 := RecordTrade(Refresh(w0, name, t0), name);
    assert w1[name] == Window(1, t0);
    var w2 := RecordTrade(Refresh(w1, name, t1), name);
    assert w2[name] == Window(2, t0);
  }

  /**
   * Once more than TRADE_WINDOW ms have passed since a window started, canTrade
   * starts a new, empty window and admits, however many trades the old one counted.
   */
  lemma ExpiredWindowAdmits(w: map<string, Window>, name: string, now: int)
    requires name in w && now - w[name].lastReset > TRADE_WINDOW
    ensures Refresh(w, name, now)[name] == Window(0, now)
    ensures Allowed(Refresh(w, name, now), name)
  {
  }

  // ---------------------------------------------------------------------
  // StatusReporter
  // ---------------------------------------------------------------------

  /**
   * The status depends only on the balance, the portfolio and the profit/loss:
   * neither the rate limiter's windows nor the purchase times show through.
   */
  lemma StatusIgnoresLimiter(s: Snapshot, windows: map<string, Window>, times: map<string, int>)
    ensures StatusOf(s.(tradeCounts := windows, purchaseTimes := times)) == StatusOf(s)
    ensures StatusOf(s).balance == s.balance && StatusOf(s).portfolio == s.portfolio
    ensures StatusOf(s).profitLoss == s.profitLoss
  {
  }

  // ---------------------------------------------------------------------
  // No trade ever happens from the initial state
  // ---------------------------------------------------------------------

  /** No position and no purchase time recorded: the default holding `{0, 0}` applies everywhere. */
  predicate Idle(s: Snapshot) {
    s.portfolio == map[] && s.purchaseTimes == map[]
  }

  /** Every price the data could yield is non-negative. */
  predicate NonNegativePrices(d: Draw) {
    d.prices.Some? ==> forall p :: p in d.prices.value ==> p >= 0.0
  }

  predicate NonNegativeCycle(c: Cycle) {
    forall i :: 0 <= i < |c.draws| ==> NonNegativePrices(c.draws[i])
  }

  /**
   * From an idle state a step changes nothing: there is nothing to force-sell,
   * the buy test `price < 0 * 0.98` fails for a non-negative price, the sell
   * test needs a share, and canTrade is never reached, so no window is created.
   */
  lemma IdleStep(s: Snapshot, name: string, d: Draw, t: int)
    requires ValidDraw(d) && NonNegativePrices(d) && Idle(s)
    ensures Step(s, name, d, t).state == s
  {
  }

  lemma {:induction false} IdlePass(s: Snapshot, c: Cycle, k: nat)
    requires ValidCycle(c) && NonNegativeCycle(c) && k <= |STOCKS| && Idle(s)
    ensures Pass(s, c, k) == s
    decreases k
  {
    if k > 0 {
      IdlePass(s, c, k - 1);
      IdleStep(s, STOCKS[k - 1].name, c.draws[k - 1], c.currentTime);
    }
  }

  lemma {:induction false} IdleRun(s: Snapshot, cycles: seq<Cycle>)
    requires forall i :: 0 <= i < |cycles| ==> ValidCycle(cycles[i]) && NonNegativeCycle(cycles[i])
    requires Idle(s)
    ensures Run(s, cycles) == s
    decreases |cycles|
  {
    if cycles != [] {
      var front := cycles[..|cycles| - 1];
      IdleRun(s, front);
      IdlePass(s, cycles[|cycles| - 1], |STOCKS|);
    }
  }

  /**
   * Starting from balance 1000 with an empty portfolio, no number of passes
   * over non-negative prices ever trades: the status stays as it started.
   */
  lemma {:induction false} NoTradeFromInitial(cycles: seq<Cycle>)
    requires forall i :: 0 <= i < |cycles| ==> ValidCycle(cycles[i]) && NonNegativeCycle(cycles[i])
    ensures Run(INITIAL, cycles) == INITIAL
    ensures StatusOf(Run(INITIAL, cycles)) == Status(1000.0, map[], 0.0)
  {
    IdleRun(INITIAL, cycles);
  }

  // ---------------------------------------------------------------------
  // A forced sale retires the symbol
  // ---------------------------------------------------------------------

  /** The symbol holds nothing and its purchase time is already overdue at `t`. */
  predicate Retired(s: Snapshot, name: string, t: int) {
    name !in s.portfolio && CheckTimeBasedConstraints(s.purchaseTimes, name, t)
  }

  /** A forced sale deletes the entry but keeps the purchase time, so the symbol is retired. */
  lemma ForcedSaleRetires(s: Snapshot, name: string, d: Draw, t: int)
    requires ValidDraw(d)
    requires Step(s, name, d, t).action.ForcedSell?
    ensures Retired(Step(s, name, d, t).state, name, t)
  {
  }

  /**
   * Once retired, a symbol stays retired under any later step; its own steps
   * are zero-share forced sales that change nothing.
   */
  lemma RetiredStep(s: Snapshot, name: string, t: int, other: string, d: Draw, later: int)
    requires Retired(s, name, t) && t <= later && ValidDraw(d)
    ensures Retired(Step(s, other, d, later).state, name, t)
    ensures other == name ==> Step(s, other, d, later).state == s
    ensures other == name ==> !Step(s, other, d, later).action.Checked?
  {
  }

  lemma {:induction false} RetiredPass(s: Snapshot, name: string, t: int, c: Cycle, k: nat)
    requires ValidCycle(c) && k <= |STOCKS|
    requires Retired(s, name, t) && t <= c.currentTime
    ensures Retired(Pass(s, c, k), name, t)
    decreases k
  {
    if k > 0 {
      RetiredPass(s, name, t, c, k - 1);
      RetiredStep(Pass(s, c, k - 1), name, t, STOCKS[k - 1].name, c.draws[k - 1], c.currentTime);
    }
  }

  lemma {:induction false} RetiredRun(s: Snapshot, name: string, t: int, cycles: seq<Cycle>)
    requires forall i :: 0 <= i < |cycles| ==> ValidCycle(cycles[i]) && t <= cycles[i].currentTime
    requires Retired(s, name, t)
    ensures Retired(Run(s, cycles), name, t)
    decreases |cycles|
  {
    if cycles != [] {
      RetiredRun(s, name, t, cycles[..|cycles| - 1]);
      RetiredPass(Run(s, cycles[..|cycles| - 1]), name, t, cycles[|cycles| - 1], |STOCKS|);
    }
  }

  /**
   * Because the purchase time survives a forced sale, a symbol that was
   * force-sold at time `t` never holds a share again in any later passes
   * whose clock has not gone back before `t`.
   */
  lemma {:induction false} ForcedSaleIsFinal(s: Snapshot, name: string, d: Draw, t: int, cycles: seq<Cycle>)
    requires ValidDraw(d)
    requires Step(s, name, d, t).action.ForcedSell?
    requires forall i :: 0 <= i < |cycles| ==> ValidCycle(cycles[i]) && t <= cycles[i].currentTime
    ensures name !in Run(Step(s, name, d, t).state, cycles).portfolio
  {
    ForcedSaleRetires(s, name, d, t);
    RetiredRun(Step(s, name, d, t).state, name, t, cycles);
  }

  // ---------------------------------------------------------------------
  // A negative price trades twice in one step
  // ---------------------------------------------------------------------

  /**
   * A negative price passes the source's truthiness test; from the initial
   * state it buys (the buy test reads `price < 0`) and, since
   * `price > price * 1.03` holds for it, sells the same share in the same
   * step. The at-most-one-trade property of Decide needs a positive price.
   */
  lemma NegativePriceTradesTwice(name: string, p: real, d: Draw, t: int)
    requires p < 0.0 && d.prices == Some([p]) && ValidDraw(d)
    requires !ShouldFailTrade(d.buyRoll) && !ShouldFailTrade(d.sellRoll)
    ensures Step(INITIAL, name, d, t).action == Checked(p, Done, Done)
  {
  }
}
