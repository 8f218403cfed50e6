# Forecast ledger and MPC action selector

This project models the two stateful components of a trading-agent repository and proves properties of them in Dafny.

- **The prediction ledger** (`ForecastRegistry`, module `ForecastLedger`, file `ledger.dfy`).
  - An agent logs price forecasts into an active list.
  - A verification pass moves every due forecast with an available market quote into the history. Each moved forecast gets its realized price and percentage error attached.
  - Each moved forecast also updates a running accuracy score. The update is an exponentially weighted moving average and is not clamped.
- **The single-step model-predictive controller** (`MPCController`, module `Mpc`, file `mpc.dfy`).
  - For each position change on a fixed action grid, the controller asks a simulator for the mean terminal price.
  - It scores each action as the expected position value minus the transaction cost.
  - It keeps the first action whose score is strictly the best.

`wrappers.dfy` (module `Wrappers`) holds `Option`, `Result` and an absolute value on reals.

Things outside the components become parameters:

- **Ledger:**
  - The clock is the `today` parameter. Dates are day numbers; ISO `YYYY-MM-DD` strings order the same way.
  - The market-data download is the oracle `fetch: string -> Option<real>`. It returns the latest close of a ticker, or `None` when the download is empty.
- **Controller:**
  - The drift/volatility estimator's result is the `Estimate` parameter.
  - The Monte-Carlo simulator is the oracle `simulate(request, k)`. It gives the mean terminal price of the batch drawn by the k-th simulator call of a pass.

Both classes are proved against specification functions on sequences.

- **Ledger pass:** one verification pass over an active list `s` is described by three functions:
  - `Kept(s)`: the entries that stay active;
  - `Settled(s)`: the entries that move to the history, with their outcome attached;
  - `ScoreAfter(score, s)`: the score after the pass.

  The lemmas state the properties of the pass in terms of these functions.
- **Controller:** the selector's result is described by
  - `Means`: the per-action simulated means;
  - `Scores`: the per-action objective;
  - `IsFirstArgmax`: the lowest index of a maximal score.

Two behaviours of the controller follow from the code alone:

- **No sale from flat.** From a flat position, selling scores the negated simulated mean times the quantity, minus a cost. Simulated prices are positive, so that score is below zero, while holding scores exactly zero. Whatever the drift, the controller never sells from flat when a hold action is on the grid (`Mpc.NoSaleFromFlat`).
- **Empty grid.** Nothing checks that the action grid is non-empty. On an empty grid, `final_prices` is never bound, so building the result fails. The model returns the error `EmptyActionGrid`.

## Model

| member | source | states |
|---|---|---|
| ForecastLedger.ErrorPct | MCP/forecast_registry.py:62-63 | the error of a forecast against a positive realized price is non-negative; it is zero exactly when the forecast was exact; and the prediction lies that percentage of the realized price above or below it |
| ForecastLedger.NextScore | MCP/forecast_registry.py:73-76 | each verification keeps 90% of the old shortfall from 100 and adds 10% of the new error; a score at most 100 stays at most 100; an error above 100 pushes a non-positive score below zero (no clamping) |
| ForecastLedger.Resolve | MCP/forecast_registry.py:59-67 | a verified entry carries the fetched close as its realized price and the error percentage of its prediction; every other field is unchanged |
| ForecastLedger.RemoveFirstRemovesOne | MCP/forecast_registry.py:70 | list removal of a present entry deletes exactly one occurrence: the multiset loses one copy and the length drops by one (on an absent entry the model returns the list unchanged where `list.remove` raises; `ForecastLedger.ActiveStepAt` shows the pass only removes present entries) |
| ForecastLedger.RemoveFirstAfter | MCP/forecast_registry.py:70 | removal deletes the first occurrence: when no earlier element equals the entry, the list loses exactly that position and keeps the rest in order |
| ForecastLedger.KeptUnresolvable | MCP/forecast_registry.py:53-57 | no entry left active by a pass is both due and quoted |
| ForecastLedger.ActiveStepAt | MCP/forecast_registry.py:53-70 | the loop iterates over a copy while removing from the live list; at each step, removing the current entry deletes exactly that entry, because no entry left active before it can equal a resolvable one |
| ForecastLedger.PassConservesCount | MCP/forecast_registry.py:69-70 | a pass conserves entries: kept plus moved equals the active entries before |
| ForecastLedger.PassDrawsFrom | MCP/forecast_registry.py:53-70 | every entry left active was active before, and every entry added to the history is an earlier active entry that was due and quoted, resolved against its quote |
| ForecastLedger.PassAccountsFor | MCP/forecast_registry.py:53-70 | each active entry ends up resolved in the history when it is due and quoted, and stays active otherwise (not due, or an empty download) |
| ForecastLedger.PassKeepsPending | MCP/forecast_registry.py:53-54 | entries whose target date is after today all stay active, unchanged and in their original relative order |
| ForecastLedger.IdlePass | MCP/forecast_registry.py:53-57 | a pass over a list with no due, quoted entry changes nothing: all stay active, nothing is moved, the score is unchanged |
| ForecastLedger.SecondPassIdle | MCP/forecast_registry.py:44-84 | a second pass with the same date and quotes changes nothing, so no entry is verified twice |
| ForecastLedger.ScoreAtMost100 | MCP/forecast_registry.py:73-76 | a score starting at most 100 stays at most 100 through a pass |
| ForecastLedger.ScoreUnclamped | MCP/forecast_registry.py:75 | an entry predicting 300 against a close of 1 takes the score from 100 to -2890: no clamping |
| ForecastLedger.VerifiedExample | MCP/forecast_registry.py:59-76 | predicted 100, realized 110: error 100/11 percent (about 9.09), the entry moves to the history once, and the score goes from 100 to 100 - 10/11 (about 99.09) |
| ForecastLedger.PassPreservesInvariant | MCP/forecast_registry.py:44-84 | a pass preserves the ledger invariant: score at most 100, counter equal to active plus history, active entries unverified, history entries verified |
| ForecastLedger.ForecastRegistry.constructor | MCP/forecast_registry.py:18-23 | a fresh ledger has score 100, no predictions, and empty active and history lists |
| ForecastLedger.ForecastRegistry.LogPrediction | MCP/forecast_registry.py:30-42 | logging appends exactly one unverified entry, with target date today plus the horizon and the given ticker, price and confidence; it adds one to the counter and leaves the history and the score unchanged |
| ForecastLedger.ForecastRegistry.VerifyForecasts | MCP/forecast_registry.py:44-84 | the active list becomes the kept entries and the history gains the settled ones, in active-list order; the score is the pass's score; the counter is unchanged; the returned count is the number moved and the returned accuracy is the new score; the invariant is kept |
| Mpc.FirstArgmaxUnique | MPC/mpc.py:32-34 | with strict replacement the selected index is unique: no other index is also a first maximum |
| Mpc.NoSaleFromFlat | MPC/mpc.py:27-34 | from a flat position, with positive means and a hold action on the grid, the selected action is never a sale |
| Mpc.HoldWhenCostsDominate | MPC/mpc.py:27-34 | from a flat position, when every trade costs more than it is expected to gain, the controller holds |
| Mpc.BuyWhenGainExceedsCost | MPC/mpc.py:27-34 | on the grid sell 10 / hold / buy 10 from flat, with independent batch means, a positive sale-batch mean and a buy-batch mean above price times cost select buying, whatever the hold batch drew |
| Mpc.StaleMeanNeverAboveChosen | MPC/mpc.py:23-38 | on the grid buy 10 / buy 10 from flat, the first action is chosen exactly when the last batch's mean is at most the first's, so the reported last mean is never above the chosen batch's mean |
| Mpc.LastMeanIsNotChosenMean | MPC/mpc.py:38 | the chosen action can differ from the last one, and then its mean can differ from the mean the decision reports |
| Mpc.MPCController.constructor | MPC/mpc.py:7-11 | the controller stores its grid, time step and cost rate; the time step defaults to one trading day (1/252) and the cost rate to 0.001 |
| Mpc.MPCController.SelectAction | MPC/mpc.py:13-41 | the simulator is called exactly once per grid action, in grid order, each time with the same price, drift, volatility, time step and path count; an empty grid is an error; otherwise mu is the override when one is given and the estimate's otherwise, sigma is always estimated, the action is the grid's first maximal-score action (every score at most its score, every earlier score strictly below it), and the expected price is the last grid action's mean, which equals the chosen action's mean when the chosen action is the last |
| Mpc.MPCController.SelectActionChosenMean | MPC/mpc.py:13-41 | the corrected selector: same simulator calls, action, mu, sigma and error case, and the expected price is the chosen action's own mean |
| Mpc.ExhibitStaleExpectedPrice | MPC/mpc.py:38 | on grid buy 10 / sell 10 with means 2 and 1, both selectors buy, but the selector as written reports 1 and the corrected one reports 2 |

## Left out

- File persistence (`_load_state`, `_save_state`) is not modelled. The constructor models only a ledger created without a saved file, so the invariant starts from the fresh state; a loaded file could break it.
- The clock and the market-data download become parameters. The oracle is a function, so one pass sees one quote per ticker, where repeated downloads in the source could return different closes.
- ForecastLedger.ForecastRegistry.VerifyForecasts: requires every quote the oracle returns to be positive. The source divides by the close unchecked, so a zero close gives an infinite or undefined error, which the model does not cover.
- ForecastLedger.ForecastRegistry.LogPrediction: returns the target date instead of the confirmation message that embeds it (string formatting).
- The source attaches the realized price and the error to the entry dictionary in place, and the history shares that object. The model builds a new record, so aliasing between the loop's copy and the history is not represented.
- All arithmetic is on exact reals. Floating-point rounding in the error, the score and the objective is not modelled.
- The Monte-Carlo GBM simulator and the drift/volatility estimator (`MCP/gbm.py`, `MCP/predictor.py`) are not part of this model. The estimator's result and the simulated means are inputs; the price history argument is not represented.
- Mpc.MPCController.SelectAction: assumes the estimate and every simulated mean are numbers. With fewer than two prices in the history, or a non-positive price, the estimator in `MCP/gbm.py` yields a NaN volatility. Every score is then NaN, and no comparison with the best score succeeds. The source then returns its initial action 0.0, which need not be on the grid, with a NaN expected price. In the model the first grid action always wins.
- ForecastLedger.ForecastRegistry.VerifyForecasts: the market-data download never raises in the model. In the source, an exception from the download ends the pass early. The entries already moved stay moved in memory, and nothing is saved.
- The controller's `predictor` field is not modelled. Its only use is replaced by the `Estimate` parameter.

## Findings

| source | as written | input that shows it | evidently intended | confidence | as-written member | corrected member |
|---|---|---|---|---|---|---|
| MPC/mpc.py:38 | `expected_final_price` is the mean of the last simulated batch, which belongs to the last grid action; the gap is pure sampling noise only when the last action loses whatever its batch draws (as on [10, -10] from flat); when the last batch's own score decides the contest, as on [10, 10] from flat, the reported mean is never above the chosen batch's mean (`Mpc.StaleMeanNeverAboveChosen`); on [-10, 0, 10] from flat, buy wins whenever its mean exceeds price times cost, and then the two coincide | grid [10, -10], flat position, no cost, means 2 then 1: action 10 is chosen (score 20 against -10) but 1 is reported (`Mpc.LastMeanIsNotChosenMean`, `Mpc.ExhibitStaleExpectedPrice`) | report the mean simulated for the chosen action | not executed | Mpc.MPCController.SelectAction | Mpc.MPCController.SelectActionChosenMean |
