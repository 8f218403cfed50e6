/**
 * The single-step model-predictive controller: for each candidate position
 * change on a fixed grid it simulates terminal prices, scores the expected
 * portfolio value net of transaction costs, and keeps the first best action.
 *
 * The drift/volatility estimator and the Monte-Carlo simulator stay outside:
 * the estimator's result is a parameter, and the simulator is the oracle
 * `simulate(request, k)`, the mean terminal price of the batch that the k-th
 * simulator call of the pass draws for `request`.
 */
module Mpc {
  import opened Wrappers

  /** Paths per simulated batch. */
  const PathCount: nat := 1000
  /** The controller's default time step: one trading day. */
  const DefaultHorizon: real := 1.0 / 252.0
  /** The controller's default cost rate: 0.1% of the traded notional. */
  const DefaultTransactionCost: real := 0.001

  /** Drift and volatility as the estimator returns them. */
  datatype Estimate = Estimate(mu: real, sigma: real)

  /** The arguments of one simulator call. */
  datatype SimRequest = SimRequest(s0: real, mu: real, sigma: real, dt: real, nPaths: nat)

  /** The dictionary `select_action` returns. */
  datatype Decision = Decision(action: real, expectedFinalPrice: real, mu: real, sigma: real)

  /** An empty grid leaves `final_prices` unbound when the result is built. */
  datatype SelectError = EmptyActionGrid

  /** `best_score`: minus infinity until the first action has been scored. */
  datatype BestScore = NegInfinity | Finite(score: real)

  /** Replacement needs a strictly larger score; anything beats minus infinity. */
  predicate Beats(score: real, best: BestScore)
  {
    best.NegInfinity? || score > best.score
  }

  /** Expected portfolio value after trading `action`, minus its cost. */
  function Objective(mean: real, position: real, action: real, price: real, cost: real): real
  {
    mean * (position + action) - Abs(action) * price * cost
  }

  /** The drift the simulation runs with: the override when there is one. */
  function Drift(estimate: Estimate, muOverride: Option<real>): real
  {
    if muOverride.Some? then muOverride.value else estimate.mu
  }

  /** The request every simulator call of one pass is made with. */
  function Request(price: real, estimate: Estimate, muOverride: Option<real>, dt: real): SimRequest
  {
    SimRequest(price, Drift(estimate, muOverride), estimate.sigma, dt, PathCount)
  }

  /** The simulated means of a pass over a grid of `n` actions, call by call. */
  function Means(request: SimRequest, n: nat, simulate: (SimRequest, nat) -> real): seq<real>
  {
    seq(n, k requires 0 <= k < n => simulate(request, k))
  }

  /** The score of each grid action, given the simulated mean for it. */
  function Scores(grid: seq<real>, means: seq<real>, position: real, price: real, cost: real): seq<real>
    requires |means| == |grid|
  {
    seq(|grid|, k requires 0 <= k < |grid| => Objective(means[k], position, grid[k], price, cost))
  }

  /** Index `k` holds a maximal score, and every earlier score is strictly smaller. */
  ghost predicate IsFirstArgmax(scores: seq<real>, k: int)
  {
    && 0 <= k < |scores|
    && (forall j :: 0 <= j < |scores| ==> scores[j] <= scores[k])
    && (forall j :: 0 <= j < k ==> scores[j] < scores[k])
  }

  /** The tie-break makes the selected index unique. */
  lemma FirstArgmaxUnique(scores: seq<real>, i: int, j: int)
    requires IsFirstArgmax(scores, i)
    requires 0 <= j < |scores| && j != i
    ensures !IsFirstArgmax(scores, j)
  {
    if j < i {
      assert scores[j] < scores[i];
    } else {
      assert scores[j] <= scores[i];
    }
  }

  /** From a flat position, with positive simulated prices and a hold action
      on the grid, the controller never sells: a sale scores below zero and
      holding scores zero. */
  lemma NoSaleFromFlat(grid: seq<real>, means: seq<real>, price: real, cost: real, k: int)
    requires |means| == |grid|
    requires forall j :: 0 <= j < |means| ==> means[j] > 0.0
    requires price >= 0.0 && cost >= 0.0
    requires 0.0 in grid
    requires IsFirstArgmax(Scores(grid, means, 0.0, price, cost), k)
    ensures grid[k] >= 0.0
  {
    var scores := Scores(grid, means, 0.0, price, cost);
    var z :| 0 <= z < |grid| && grid[z] == 0.0;
    assert scores[z] == 0.0;
  }

  /** From a flat position, when every non-zero action costs more than it is
      expected to gain, the controller holds, whatever the drift. */
  lemma HoldWhenCostsDominate(grid: seq<real>, means: seq<real>, price: real, cost: real, k: int)
    requires |means| == |grid|
    requires 0.0 in grid
    requires forall j :: 0 <= j < |grid| && grid[j] != 0.0 ==> means[j] * grid[j] < Abs(grid[j]) * price * cost
    requires IsFirstArgmax(Scores(grid, means, 0.0, price, cost), k)
    ensures grid[k] == 0.0
  {
    var scores := Scores(grid, means, 0.0, price, cost);
    var z :| 0 <= z < |grid| && grid[z] == 0.0;
    assert scores[z] == 0.0;
  }

  /** On the grid sell 10 / hold / buy 10 from a flat position, with a
      positive mean for the sale batch, a buy-batch mean above the cost per
      share makes buying the choice, whatever the other batches drew. */
  lemma BuyWhenGainExceedsCost(m0: real, m1: real, m2: real, price: real, cost: real)
    requires price >= 0.0 && cost >= 0.0
    requires m0 > 0.0 && m2 > price * cost
    ensures IsFirstArgmax(Scores([-10.0, 0.0, 10.0], [m0, m1, m2], 0.0, price, cost), 2)
  {
    var scores := Scores([-10.0, 0.0, 10.0], [m0, m1, m2], 0.0, price, cost);
    assert price * cost >= 0.0;
    assert scores[0] == -10.0 * m0 - 10.0 * price * cost;
    assert scores[1] == 0.0;
    assert scores[2] == 10.0 * m2 - 10.0 * price * cost;
  }

  /** When the last batch's own score decides the contest, the reported mean is
      biased low: on the grid buy 10 / buy 10 from a flat position, the first
      action is kept exactly when the last batch's mean is at most its own, so
      the last mean reported is never above the chosen batch's mean. */
  lemma StaleMeanNeverAboveChosen(m0: real, m1: real, price: real, cost: real)
    ensures IsFirstArgmax(Scores([10.0, 10.0], [m0, m1], 0.0, price, cost), 0) <==> m1 <= m0
  {
    var scores := Scores([10.0, 10.0], [m0, m1], 0.0, price, cost);
    assert scores[0] == 10.0 * m0 - 10.0 * price * cost;
    assert scores[1] == 10.0 * m1 - 10.0 * price * cost;
  }

  /** The returned expected price belongs to the last grid action, which need
      not be the chosen one: on the grid buy 10 / sell 10 from a flat position
      at no cost, means 2 and 1 select the first action, whose own mean is 2,
      while the decision reports 1. */
  lemma LastMeanIsNotChosenMean()
    ensures var means := [2.0, 1.0];
            && IsFirstArgmax(Scores([10.0, -10.0], means, 0.0, 1.0, 0.0), 0)
            && means[|means| - 1] != means[0]
  {
    var scores := Scores([10.0, -10.0], [2.0, 1.0], 0.0, 1.0, 0.0);
    assert scores[0] == 20.0 && scores[1] == -10.0;
  }

  /** The controller of MPC/mpc.py; the predictor it holds is replaced by the
      estimate passed to SelectAction. */
  class MPCController {
    var actionGrid: seq<real>
    var dt: real
    var transactionCost: real

    constructor (actionGrid: seq<real>, horizon: real := DefaultHorizon, transactionCost: real := DefaultTransactionCost)
      ensures this.actionGrid == actionGrid && dt == horizon && this.transactionCost == transactionCost
    {
      this.actionGrid := actionGrid;
      dt := horizon;
      this.transactionCost := transactionCost;
    }

    /** The decision as mpc.py builds it: best action by the first-maximum
        rule, drift from the override when given, volatility always
        estimated, and the expected price of the LAST simulated batch. */
    method SelectAction(currentPrice: real, currentPosition: real, estimate: Estimate, muOverride: Option<real>,
                        simulate: (SimRequest, nat) -> real)
      returns (result: Result<Decision, SelectError>, ghost best: int, ghost calls: seq<SimRequest>)
      ensures var request := Request(currentPrice, estimate, muOverride, dt);
              calls == seq(|actionGrid|, _ => request)
      ensures result.Failure? <==> actionGrid == []
      ensures result.Success? ==>
        var request := Request(currentPrice, estimate, muOverride, dt);
        var means := Means(request, |actionGrid|, simulate);
        && result.value.mu == Drift(estimate, muOverride)
        && result.value.sigma == estimate.sigma
        && IsFirstArgmax(Scores(actionGrid, means, currentPosition, currentPrice, transactionCost), best)
        && result.value.action == actionGrid[best]
        && result.value.expectedFinalPrice == means[|actionGrid| - 1]
        && (best == |actionGrid| - 1 ==> result.value.expectedFinalPrice == means[best])
    {
      var mu := Drift(estimate, muOverride);
      var sigma := estimate.sigma;
      var request := SimRequest(currentPrice, mu, sigma, dt, PathCount);
      ghost var scores := Scores(actionGrid, Means(request, |actionGrid|, simulate), currentPosition, currentPrice, transactionCost);
      var bestAction := 0.0;
      var bestScore := NegInfinity;
      var finalMean: Option<real> := None;
      best := 0;
      calls := [];
      for k := 0 to |actionGrid|
        invariant calls == seq(k, _ => request)
        invariant finalMean.None? <==> k == 0
        invariant k > 0 ==> finalMean.value == simulate(request, k - 1)
        invariant k == 0 ==> bestScore == NegInfinity
        invariant k > 0 ==> 0 <= best < k && bestScore == Finite(scores[best]) && bestAction == actionGrid[best]
        invariant k > 0 ==> forall j :: 0 <= j < k ==> scores[j] <= scores[best]
        invariant k > 0 ==> forall j :: 0 <= j < best ==> scores[j] < scores[best]
      {
        var action := actionGrid[k];
        var mean := simulate(request, k);
        calls := calls + [request];
        finalMean := Some(mean);
        var score := Objective(mean, currentPosition, action, currentPrice, transactionCost);
        assert score == scores[k];
        if Beats(score, bestScore) {
          bestScore := Finite(score);
          bestAction := action;
          best := k;
        }
      }
      if finalMean.None? {
        return Failure(EmptyActionGrid), best, calls;
      }
      result := Success(Decision(bestAction, finalMean.value, mu, sigma));
    }

    /** The decision with the expected price of the chosen action's own batch. */
    method SelectActionChosenMean(currentPrice: real, currentPosition: real, estimate: Estimate, muOverride: Option<real>,
                                  simulate: (SimRequest, nat) -> real)
      returns (result: Result<Decision, SelectError>, ghost best: int, ghost calls: seq<SimRequest>)
      ensures var request := Request(currentPrice, estimate, muOverride, dt);
              calls == seq(|actionGrid|, _ => request)
      ensures result.Failure? <==> actionGrid == []
      ensures result.Success? ==>
        var request := Request(currentPrice, estimate, muOverride, dt);
        var means := Means(request, |actionGrid|, simulate);
        && result.value.mu == Drift(estimate, muOverride)
        && result.value.sigma == estimate.sigma
        && IsFirstArgmax(Scores(actionGrid, means, currentPosition, currentPrice, transactionCost), best)
        && result.value.action == actionGrid[best]
        && result.value.expectedFinalPrice == means[best]
    {
      var mu := Drift(estimate, muOverride);
      var sigma := estimate.sigma;
      var request := SimRequest(currentPrice, mu, sigma, dt, PathCount);
      ghost var scores := Scores(actionGrid, Means(request, |actionGrid|, simulate), currentPosition, currentPrice, transactionCost);
      var bestAction := 0.0;
      var bestMean := 0.0;
      var bestScore := NegInfinity;
      best := 0;
      calls := [];
      for k := 0 to |actionGrid|
        invariant calls == seq(k, _ => request)
        invariant k == 0 ==> bestScore == NegInfinity
        invariant k > 0 ==> 0 <= best < k && bestScore == Finite(scores[best]) && bestAction == actionGrid[best]
        invariant k > 0 ==> bestMean == simulate(request, best)
        invariant k > 0 ==> forall j :: 0 <= j < k ==> scores[j] <= scores[best]
        invariant k > 0 ==> forall j :: 0 <= j < best ==> scores[j] < scores[best]
      {
        var action := actionGrid[k];
        var mean := simulate(request, k);
        calls := calls + [request];
        var score := Objective(mean, currentPosition, action, currentPrice, transactionCost);
        assert score == scores[k];
        if Beats(score, bestScore) {
          bestScore := Finite(score);
          bestAction := action;
          bestMean := mean;
          best := k;
        }
      }
      if bestScore.NegInfinity? {
        return Failure(EmptyActionGrid), best, calls;
      }
      result := Success(Decision(bestAction, bestMean, mu, sigma));
    }
  }

  /** The two selectors on the grid buy 10 / sell 10 from a flat position at
      no cost, with simulated means 2 and 1: both buy, but the selector as
      written reports the sell batch's mean. */
  method ExhibitStaleExpectedPrice() returns (asWritten: Decision, corrected: Decision)
    ensures asWritten.action == corrected.action == 10.0
    ensures asWritten.expectedFinalPrice == 1.0 && corrected.expectedFinalPrice == 2.0
  {
    var controller := new MPCController([10.0, -10.0], DefaultHorizon, 0.0);
    var simulate: (SimRequest, nat) -> real := (r, k) => if k == 0 then 2.0 else 1.0;
    var none: Option<real> := None;
    LastMeanIsNotChosenMean();
    var request := Request(1.0, Estimate(0.1, 0.2), none, DefaultHorizon);
    assert Means(request, 2, simulate) == [2.0, 1.0];
    var r1, b1, c1 := controller.SelectAction(1.0, 0.0, Estimate(0.1, 0.2), none, simulate);
    var r2, b2, c2 := controller.SelectActionChosenMean(1.0, 0.0, Estimate(0.1, 0.2), none, simulate);
    assert Scores([10.0, -10.0], [2.0, 1.0], 0.0, 1.0, 0.0) == [20.0, -10.0];
    asWritten, corrected := r1.value, r2.value;
  }
}
