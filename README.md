# Stock trading evaluator — a Dafny model

This project models the trading-strategy evaluator of a small stock-trading
simulator (`src/controllers/stockprice.controller.js`). Every 5 seconds the
evaluator walks the fixed symbol list AAPL, TSLA, GOOGL. For each symbol it
samples a price from that symbol's mock price list. It force-sells a position
held for more than two minutes. Otherwise it buys one share when the price has
dropped 2 % below the last buy price, then sells one share when the price is
3 % above it. A per-symbol rate limiter allows at most 3 trades per 60-second
window, and each admitted trade fails with a 10 % chance. A status endpoint
reports the balance, the portfolio and the realised profit/loss.

Layout:

- `wrappers.dfy` — `Option`.
- `strategy.dfy` — module `Strategy`: the policy constants, the data model
  (`Holding`, `Window`, `Snapshot` = the controller's five module-level
  variables, `Status`), and the evaluator as pure functions: `GetRandomPrice`,
  `CheckTimeBasedConstraints`, `Refresh` (the window side effect of
  `canTrade`), `BuyPhase`, `SellPhase`, `ForcedSale`, `Decide`, `Step` (one
  symbol), `Pass`/`Evaluate` (one `checkTradingStrategy` call) and `Run`
  (consecutive passes). `shouldFailTrade` is `ShouldFailTrade`.
- `controller.dfy` — module `Controller`: class `TradingState` holds the five
  variables as fields, and its methods update them in place in the source's
  order. Each method is proved to produce exactly the state that the matching
  `Strategy` function gives. The methods also keep the invariant `Valid()`:
  no share count is negative and no window counts more than 3 trades.
- `properties.dfy` — module `StrategyProperties`: lemmas that span several
  steps or passes.

The non-deterministic inputs are parameters. A `Draw` holds, for one symbol:

- the parsed price list, which is `None` when the data is missing;
- the `Math.random` value that picks the price;
- the `Date.now` value that the buy check's `canTrade` reads, and the random
  value that decides whether the buy fails;
- the same two values for the sell check.

A `Cycle` holds the draws of one pass and the pass's `Date.now`.

Behaviour of the code that the model keeps on purpose:

- `canTrade` runs only after the price and balance (or quantity) tests pass,
  because `&&` short-circuits. A window is created or reset only in that case.
- A forced sale deletes the portfolio entry but keeps the purchase time
  (lines 99–108), although the timer is meant for a held position (the comment
  at line 46 reads "Check if a stock has been held too long"). The model
  follows the code. As a result a force-sold symbol stays overdue: each
  later step of that symbol is a zero-share forced sale that changes nothing,
  so the symbol never trades again (`ForcedSaleIsFinal`).
- A discretionary sale never deletes the entry. A holding with quantity 0 stays
  in the portfolio.
- The sell check sees the holding as the buy check left it.
- A purchase time of 0 is falsy in the hold-timer test, so it never triggers
  a forced sale.
- A symbol with no entry is treated as `{quantity: 0, buyPrice: 0}`. Its buy
  test then reads `price < 0`. So from the initial state no non-negative price
  ever trades (`NoTradeFromInitial`). A negative price is not filtered out:
  from the initial state it buys and, when neither trade fails, sells the same
  share in the same step (`NegativePriceTradesTwice`).

## Model

| member | source | states |
|---|---|---|
| `Strategy.RandomIndex` | src/controllers/stockprice.controller.js:37 | flooring a draw in [0, 1) times the length n gives a valid index i with i ≤ draw·n < i + 1 |
| `StrategyProperties.IndexOwnsInterval` | src/controllers/stockprice.controller.js:37 | index i is picked exactly by the draws in [i/n, (i+1)/n), each a valid draw |
| `Strategy.GetRandomPrice` | src/controllers/stockprice.controller.js:31-39 | a price is returned exactly when a non-empty list is present, and it is one of the list's prices |
| `StrategyProperties.EveryPriceReachable` | src/controllers/stockprice.controller.js:31-39 | every price ps[i] of a non-empty list is the one returned for every draw in [i/n, (i+1)/n), and those draws are valid |
| `StrategyProperties.HoldTimerThreshold` | src/controllers/stockprice.controller.js:47-55 | a never-bought symbol is never overdue; a bought one is not overdue at exactly 120000 ms but is at 120001 ms; once overdue it stays overdue as time advances |
| `Strategy.Refresh` | src/controllers/stockprice.controller.js:58-70 | canTrade creates `{0, now}` for an absent window, restarts it as `{0, now}` when more than 60000 ms old, and otherwise keeps it unchanged; other symbols' windows are untouched; it admits exactly when the window is new, expired, or counts fewer than 3 trades |
| `Strategy.RecordTrade` | src/controllers/stockprice.controller.js:123 | adds one to the symbol's count, keeps its window start, and leaves the other windows and the key set alone |
| `StrategyProperties.FourthTradeDenied` | src/controllers/stockprice.controller.js:58-70 | for a fresh symbol, three admitted and recorded trades within 60000 ms of the first fill the window, and a fourth canTrade in that window is refused |
| `StrategyProperties.ExpiredWindowAdmits` | src/controllers/stockprice.controller.js:63-69 | more than 60000 ms after the window start, canTrade restarts the window empty and admits, whatever the old count |
| `Strategy.CheckTimeBasedConstraints` | src/controllers/stockprice.controller.js:47-55 | a symbol without a recorded purchase time is never overdue; an overdue one was bought more than 120000 ms before the current time |
| `Strategy.HoldingOf` | src/controllers/stockprice.controller.js:96 | gives the symbol's entry, or `{quantity: 0, buyPrice: 0}` when it has none; the quantity is non-negative when every entry's is |
| `Controller.TradingState.CanTrade` | src/controllers/stockprice.controller.js:58-70 | updates only the windows, as `Refresh` says, keeps `Valid()`, and returns whether fewer than 3 trades are counted |
| `Strategy.BuyPhase` | src/controllers/stockprice.controller.js:111-130 | the buy fires iff price < 0.98·buyPrice, balance ≥ price, canTrade admits and the trade does not fail (`ShouldFailTrade`: the draw is below 0.1, lines 42-44); on success quantity +1, balance −price (never below 0), buyPrice := price, purchase time := now, count +1 (≤ 3); a denied or failed buy changes only the refreshed window; with no signal nothing changes |
| `Strategy.SellPhase` | src/controllers/stockprice.controller.js:132-149 | the sell fires iff price > 1.03·buyPrice, quantity > 0, canTrade admits and the trade does not fail (`ShouldFailTrade`); on success the existing entry keeps its key with quantity −1, balance +price, profitLoss += price − buyPrice, count +1 (≤ 3); a failed or denied sell changes only the refreshed window |
| `Strategy.ForcedSale` | src/controllers/stockprice.controller.js:98-109 | sells every held share at the price: balance += price·q, profitLoss += (price − buyPrice)·q, the entry is gone, purchase times and windows unchanged |
| `Strategy.Decide` | src/controllers/stockprice.controller.js:111-149 | for a positive price, when the buy test holds the sell test does not, so at most one trade happens; only the symbol's own entries change; share counts stay ≥ 0 and window counts ≤ 3 |
| `Strategy.Step` | src/controllers/stockprice.controller.js:82-150 | skips, with no change, exactly when no price list, an empty list or a 0 price is sampled; else forced-sells exactly when the hold timer is overdue, otherwise runs the buy then sell checks; other symbols are untouched; the invariants are kept |
| `Strategy.Pass` | src/controllers/stockprice.controller.js:76-82 | the first k symbols of a pass, in list order, keep the invariants |
| `Strategy.Evaluate` | src/controllers/stockprice.controller.js:73-151 | one full pass over AAPL, TSLA, GOOGL keeps the invariants |
| `Strategy.Run` | src/controllers/stockprice.controller.js:163-165 | any number of consecutive passes keeps the invariants |
| `Controller.TradingState.constructor` | src/controllers/stockprice.controller.js:8-12 | starts at balance 1000 with empty portfolio, windows and purchase times, and profit/loss 0 |
| `Controller.TradingState.BuyCheck` | src/controllers/stockprice.controller.js:112-130 | the in-place buy yields `BuyPhase`'s state, and the local holding stays equal to the portfolio entry |
| `Controller.TradingState.SellCheck` | src/controllers/stockprice.controller.js:133-149 | the in-place sell yields `SellPhase`'s state |
| `Controller.TradingState.StepSymbol` | src/controllers/stockprice.controller.js:82-150 | the in-place loop body yields `Step`'s state and keeps `Valid()` |
| `Controller.TradingState.CheckTradingStrategy` | src/controllers/stockprice.controller.js:73-151 | the in-place loop over the symbols yields `Evaluate`'s state and keeps `Valid()` |
| `Controller.TradingState.RunTradingLogic` | src/controllers/stockprice.controller.js:163-165 | repeated passes yield `Run`'s state and keep `Valid()` |
| `Controller.TradingState.GetStockStatus` | src/controllers/stockprice.controller.js:154-160 | returns `StatusOf` of the current state (its balance, portfolio and profit/loss) and changes nothing |
| `StrategyProperties.StatusIgnoresLimiter` | src/controllers/stockprice.controller.js:154-160 | the status is the state's balance, portfolio and profit/loss, and does not depend on the trade windows or the purchase times |
| `StrategyProperties.IdleStep` | src/controllers/stockprice.controller.js:96-149 | with no holding and no purchase time, a step with a non-negative price changes nothing, not even the windows |
| `StrategyProperties.IdlePass` | src/controllers/stockprice.controller.js:82-150 | such a state is unchanged by any prefix of a pass |
| `StrategyProperties.IdleRun` | src/controllers/stockprice.controller.js:73-151 | such a state is unchanged by any number of passes |
| `StrategyProperties.NoTradeFromInitial` | src/controllers/stockprice.controller.js:8-12 | from the initial state, passes over non-negative prices leave the status at balance 1000, an empty portfolio and profit/loss 0 |
| `StrategyProperties.ForcedSaleRetires` | src/controllers/stockprice.controller.js:99-108 | after a forced sale the symbol holds nothing and its purchase time still reads as overdue |
| `StrategyProperties.RetiredStep` | src/controllers/stockprice.controller.js:47-55 | a step of any symbol at a later time keeps a retired symbol retired; a step of the retired symbol itself changes nothing and never runs the buy or sell checks |
| `StrategyProperties.RetiredPass` | src/controllers/stockprice.controller.js:82-150 | a later pass keeps a retired symbol retired |
| `StrategyProperties.RetiredRun` | src/controllers/stockprice.controller.js:163-165 | later passes keep a retired symbol retired |
| `StrategyProperties.ForcedSaleIsFinal` | src/controllers/stockprice.controller.js:98-109 | a symbol force-sold at time t holds no shares after any later passes whose clock is at least t |
| `StrategyProperties.NegativePriceTradesTwice` | src/controllers/stockprice.controller.js:90-149 | any negative price sampled from the initial state is not skipped and, when neither trade fails, both buys and sells in the same step |

## Left out

- Reading and parsing the data files (`loadStockData`, lines 18–28) is not modelled. Its result is an input: a price list, or `None` when the file is missing or unreadable, or when `prices` is absent or not an array.
- Price entries whose `price` field is missing, `NaN` or not a number are not modelled, because prices are `real`. A `null` entry is not modelled either. Reading its `price` (line 38) throws a `TypeError` that escapes the `forEach` and the `setInterval` callback (line 164), and with no `uncaughtException` handler the process exits: no later pass runs and the status endpoint is gone.
- `Math.random` is not modelled; its values are inputs. Only the draw that picks the price is constrained to [0, 1).
- `Date.now` is not modelled; its values are inputs. `canTrade` reads the clock twice (lines 60 and 63). The model gives both reads one value, so a window created by `canTrade` is never reset in the same call.
- Timer scheduling (`setInterval`, line 164) is not modelled. `Run` and `RunTradingLogic` model a given sequence of passes, and status reads happen between passes.
- IEEE-754 rounding is not modelled. Prices and the thresholds 0.98, 1.03 and 0.1 are exact reals, and timestamps are unbounded integers.
- Console logging is not modelled. `Action` records which outcome would be logged.
- The holding object is not modelled as a heap object; holdings are values. When the symbol has an entry, the code's local holding (line 96) is that entry, so the model writes the sell's decrement back to the portfolio. When it has none, line 96 builds a fresh `{0, 0}` that reaches the portfolio only through the successful buy at line 121, and the model inserts it there. The zeroing at line 106 touches an object that line 107 then deletes, so the model only deletes the entry.
- The Express bootstrap (`src/app.js`), the route wiring (`src/routes/stock.routes.js`) and the JSON serialisation in `res.json` are not modelled. `GetStockStatus` returns the snapshot as a value.
