/**
 * The prediction ledger: a registry of forecasts waiting for their target date
 * and of forecasts already checked against the realized market price, with a
 * running accuracy score.
 *
 * The wall clock becomes the parameter `today`, and the market-data download
 * becomes the oracle `fetch`, which gives the latest close of a ticker or None
 * when the download comes back empty.
 */
module ForecastLedger {
  import opened Wrappers

  /** A calendar day as a day number. The ledger stores ISO "YYYY-MM-DD"
      strings, whose lexicographic order is the order of these numbers. */
  type Date = int

  /** What verification attaches to an entry: the realized price and the
      absolute percentage error of the prediction against it. */
  datatype Verification = Verification(realPrice: real, errorPct: real)

  /** One ledger entry. `outcome` is None while the entry is active and
      Some once it has been verified and moved to the history. */
  datatype Forecast = Forecast(
    date: Date,
    targetDate: Date,
    ticker: string,
    predictedPrice: real,
    confidence: real,
    outcome: Option<Verification>)

  const InitialAccuracy: real := 100.0

  /** The market-data oracle never reports a non-positive close. */
  ghost predicate PositiveQuotes(fetch: string -> Option<real>)
  {
    forall t :: fetch(t).Some? ==> fetch(t).value > 0.0
  }

  /** Percentage error of a prediction against the realized price. */
  function ErrorPct(predicted: real, realized: real): (e: real)
    requires realized > 0.0
    ensures e >= 0.0
    ensures e == 0.0 <==> predicted == realized
    ensures predicted == realized + realized * e / 100.0 || predicted == realized - realized * e / 100.0
  {
    Abs(realized - predicted) / realized * 100.0
  }

  /** One step of the exponentially weighted accuracy score. */
  function NextScore(score: real, errorPct: real): (s: real)
    ensures 100.0 - s == 0.9 * (100.0 - score) + 0.1 * errorPct
    ensures score <= 100.0 && errorPct >= 0.0 ==> s <= 100.0
    ensures errorPct > 100.0 && score <= 0.0 ==> s < 0.0
  {
    score * 0.9 + (100.0 - errorPct) * 0.1
  }

  /** An entry is due once its target date has arrived. */
  predicate Due(f: Forecast, today: Date)
  {
    f.targetDate <= today
  }

  /** A due entry whose price fetch returns data: the pass verifies it. */
  predicate Resolvable(f: Forecast, today: Date, fetch: string -> Option<real>)
  {
    Due(f, today) && fetch(f.ticker).Some?
  }

  /** The entry as it enters the history: realized price and error attached. */
  function Resolve(f: Forecast, fetch: string -> Option<real>): (g: Forecast)
    requires PositiveQuotes(fetch) && fetch(f.ticker).Some?
    ensures g.outcome.Some? && g.outcome.value.realPrice == fetch(f.ticker).value
    ensures g.outcome.value.errorPct == ErrorPct(f.predictedPrice, fetch(f.ticker).value)
    ensures g.(outcome := f.outcome) == f
  {
    var realized := fetch(f.ticker).value;
    f.(outcome := Some(Verification(realized, ErrorPct(f.predictedPrice, realized))))
  }

  /** The entries a verification pass over `s` leaves active, in order. */
  function Kept(s: seq<Forecast>, today: Date, fetch: string -> Option<real>): seq<Forecast>
  {
    if s == [] then []
    else
      var last := s[|s| - 1];
      Kept(s[..|s| - 1], today, fetch) + (if Resolvable(last, today, fetch) then [] else [last])
  }

  /** The entries a verification pass over `s` appends to the history, in order. */
  function Settled(s: seq<Forecast>, today: Date, fetch: string -> Option<real>): seq<Forecast>
    requires PositiveQuotes(fetch)
  {
    if s == [] then []
    else
      var last := s[|s| - 1];
      var r := Settled(s[..|s| - 1], today, fetch);
      if Resolvable(last, today, fetch) then r + [Resolve(last, fetch)] else r
  }

  /** The accuracy score after a pass over `s` that started from `score`. */
  function ScoreAfter(score: real, s: seq<Forecast>, today: Date, fetch: string -> Option<real>): real
    requires PositiveQuotes(fetch)
  {
    if s == [] then score
    else
      var last := s[|s| - 1];
      var before := ScoreAfter(score, s[..|s| - 1], today, fetch);
      if Resolvable(last, today, fetch)
      then NextScore(before, Resolve(last, fetch).outcome.value.errorPct)
      else before
  }

  /** The active list while the pass is under way: the first `i` entries of
      the snapshot have been handled, the rest are untouched. */
  ghost function ActiveAt(s: seq<Forecast>, i: nat, today: Date, fetch: string -> Option<real>): seq<Forecast>
    requires i <= |s|
  {
    Kept(s[..i], today, fetch) + s[i..]
  }

  /** The entries not yet due, in order. */
  function Pending(s: seq<Forecast>, today: Date): seq<Forecast>
  {
    if s == [] then []
    else
      var last := s[|s| - 1];
      Pending(s[..|s| - 1], today) + (if Due(last, today) then [] else [last])
  }

  /** `list.remove`: drop the first element equal to `x`. */
  function RemoveFirst<T(==)>(s: seq<T>, x: T): seq<T>
  {
    if s == [] then []
    else
      assert s == [s[0]] + s[1..];
      if s[0] == x then s[1..] else [s[0]] + RemoveFirst(s[1..], x)
  }

  /** `list.remove` takes out exactly one occurrence when there is one and
      leaves the list alone otherwise (where Python would raise ValueError). */
  lemma {:induction false} RemoveFirstRemovesOne<T>(s: seq<T>, x: T)
    ensures x !in s ==> RemoveFirst(s, x) == s
    ensures x in s ==> multiset(RemoveFirst(s, x)) == multiset(s) - multiset{x} && |RemoveFirst(s, x)| == |s| - 1
  {
    if s != [] {
      assert s == [s[0]] + s[1..];
      RemoveFirstRemovesOne(s[1..], x);
    }
  }

  /** Removing `x` from a list whose first occurrence of `x` follows `p`. */
  lemma {:induction false} RemoveFirstAfter<T>(p: seq<T>, x: T, rest: seq<T>)
    requires x !in p
    ensures RemoveFirst(p + [x] + rest, x) == p + rest
  {
    var q := p + [x] + rest;
    if p == [] {
      assert q[0] == x && q[1..] == rest;
    } else {
      assert q[0] == p[0] != x;
      assert q[1..] == p[1..] + [x] + rest;
      RemoveFirstAfter(p[1..], x, rest);
      assert p == [p[0]] + p[1..];
    }
  }

  /** The Kept part of PassStep, for callers without PositiveQuotes (Kept needs none). */
  lemma KeptStep(p: seq<Forecast>, x: Forecast, today: Date, fetch: string -> Option<real>)
    ensures Kept(p + [x], today, fetch) == Kept(p, today, fetch) + (if Resolvable(x, today, fetch) then [] else [x])
  {
  }

  /** One more entry at the end of the pass: how the three results grow. */
  lemma PassStep(p: seq<Forecast>, x: Forecast, today: Date, fetch: string -> Option<real>, score: real)
    requires PositiveQuotes(fetch)
    ensures Kept(p + [x], today, fetch) == Kept(p, today, fetch) + (if Resolvable(x, today, fetch) then [] else [x])
    ensures Settled(p + [x], today, fetch) == Settled(p, today, fetch) + (if Resolvable(x, today, fetch) then [Resolve(x, fetch)] else [])
    ensures ScoreAfter(score, p + [x], today, fetch) ==
      if Resolvable(x, today, fetch) then NextScore(ScoreAfter(score, p, today, fetch), Resolve(x, fetch).outcome.value.errorPct)
      else ScoreAfter(score, p, today, fetch)
  {
  }

  /** A pass never leaves behind an entry it could have verified. */
  lemma {:induction false} KeptUnresolvable(s: seq<Forecast>, today: Date, fetch: string -> Option<real>)
    ensures forall k :: 0 <= k < |Kept(s, today, fetch)| ==> !Resolvable(Kept(s, today, fetch)[k], today, fetch)
  {
    if s != [] {
      KeptUnresolvable(s[..|s| - 1], today, fetch);
    }
  }

  /** Handling entry `i` of the snapshot: `list.remove` takes out exactly that
      entry when it is verified, because no entry kept before it can equal it. */
  lemma ActiveStepAt(s: seq<Forecast>, i: nat, today: Date, fetch: string -> Option<real>)
    requires i < |s|
    ensures Resolvable(s[i], today, fetch) ==>
      ActiveAt(s, i + 1, today, fetch) == RemoveFirst(ActiveAt(s, i, today, fetch), s[i])
    ensures !Resolvable(s[i], today, fetch) ==>
      ActiveAt(s, i + 1, today, fetch) == ActiveAt(s, i, today, fetch)
  {
    var k := Kept(s[..i], today, fetch);
    var rest := s[i + 1..];
    assert s[..i + 1] == s[..i] + [s[i]];
    KeptStep(s[..i], s[i], today, fetch);
    assert s[i..] == [s[i]] + rest;
    if Resolvable(s[i], today, fetch) {
      KeptUnresolvable(s[..i], today, fetch);
      RemoveFirstAfter(k, s[i], rest);
      var before := ActiveAt(s, i, today, fetch);
      assert before == k + [s[i]] + rest;
      assert RemoveFirst(before, s[i]) == k + rest;
      assert Kept(s[..i + 1], today, fetch) == k;
      assert ActiveAt(s, i + 1, today, fetch) == k + rest;
    } else {
      assert k + s[i..] == (k + [s[i]]) + rest;
    }
  }

  /** Handling entry `i` of the snapshot: the history and the score grow by
      one step exactly when the entry is verified. */
  lemma PassStepAt(s: seq<Forecast>, i: nat, today: Date, fetch: string -> Option<real>, score: real)
    requires PositiveQuotes(fetch)
    requires i < |s|
    ensures Resolvable(s[i], today, fetch) ==>
      && Settled(s[..i + 1], today, fetch) == Settled(s[..i], today, fetch) + [Resolve(s[i], fetch)]
      && ScoreAfter(score, s[..i + 1], today, fetch)
         == NextScore(ScoreAfter(score, s[..i], today, fetch), Resolve(s[i], fetch).outcome.value.errorPct)
    ensures !Resolvable(s[i], today, fetch) ==>
      && Settled(s[..i + 1], today, fetch) == Settled(s[..i], today, fetch)
      && ScoreAfter(score, s[..i + 1], today, fetch) == ScoreAfter(score, s[..i], today, fetch)
  {
    assert s[..i + 1] == s[..i] + [s[i]];
    PassStep(s[..i], s[i], today, fetch, score);
  }

  /** One iteration of the verification loop on a due, quoted entry: the live
      list loses that entry, the history gains it resolved, the score takes
      one update and the count one more. */
  lemma VerifiedStepAt(s: seq<Forecast>, i: nat, today: Date, fetch: string -> Option<real>,
                       score: real, history: seq<Forecast>)
    requires PositiveQuotes(fetch)
    requires i < |s| && Resolvable(s[i], today, fetch)
    ensures ActiveAt(s, i + 1, today, fetch) == RemoveFirst(ActiveAt(s, i, today, fetch), s[i])
    ensures history + Settled(s[..i + 1], today, fetch) == history + Settled(s[..i], today, fetch) + [Resolve(s[i], fetch)]
    ensures ScoreAfter(score, s[..i + 1], today, fetch)
            == NextScore(ScoreAfter(score, s[..i], today, fetch), ErrorPct(s[i].predictedPrice, fetch(s[i].ticker).value))
    ensures |Settled(s[..i + 1], today, fetch)| == |Settled(s[..i], today, fetch)| + 1
  {
    ActiveStepAt(s, i, today, fetch);
    PassStepAt(s, i, today, fetch, score);
  }

  /** One iteration of the verification loop on an entry that is not due or
      has no quote: nothing changes. */
  lemma SkippedStepAt(s: seq<Forecast>, i: nat, today: Date, fetch: string -> Option<real>, score: real)
    requires PositiveQuotes(fetch)
    requires i < |s| && !Resolvable(s[i], today, fetch)
    ensures ActiveAt(s, i + 1, today, fetch) == ActiveAt(s, i, today, fetch)
    ensures Settled(s[..i + 1], today, fetch) == Settled(s[..i], today, fetch)
    ensures ScoreAfter(score, s[..i + 1], today, fetch) == ScoreAfter(score, s[..i], today, fetch)
  {
    ActiveStepAt(s, i, today, fetch);
    PassStepAt(s, i, today, fetch, score);
  }

  /** Every entry is either kept or moved: a pass conserves the number of entries. */
  lemma {:induction false} PassConservesCount(s: seq<Forecast>, today: Date, fetch: string -> Option<real>)
    requires PositiveQuotes(fetch)
    ensures |Kept(s, today, fetch)| + |Settled(s, today, fetch)| == |s|
  {
    if s != [] {
      PassConservesCount(s[..|s| - 1], today, fetch);
    }
  }

  /** `g` is some verifiable entry of `s` with its verification attached. */
  ghost predicate ResolvedFrom(g: Forecast, s: seq<Forecast>, today: Date, fetch: string -> Option<real>)
    requires PositiveQuotes(fetch)
  {
    exists j :: 0 <= j < |s| && Resolvable(s[j], today, fetch) && g == Resolve(s[j], fetch)
  }

  /** The pass invents no entries: everything kept was active, and everything
      settled is a verifiable active entry with its verification attached. */
  lemma {:induction false} PassDrawsFrom(s: seq<Forecast>, today: Date, fetch: string -> Option<real>)
    requires PositiveQuotes(fetch)
    ensures forall k :: 0 <= k < |Kept(s, today, fetch)| ==> Kept(s, today, fetch)[k] in s
    ensures forall k :: 0 <= k < |Settled(s, today, fetch)| ==> ResolvedFrom(Settled(s, today, fetch)[k], s, today, fetch)
  {
    if s != [] {
      var init := s[..|s| - 1];
      var last := s[|s| - 1];
      assert s == init + [last];
      PassDrawsFrom(init, today, fetch);
      PassStep(init, last, today, fetch, 0.0);
      var settled := Settled(s, today, fetch);
      forall k | 0 <= k < |settled|
        ensures ResolvedFrom(settled[k], s, today, fetch)
      {
        if k < |Settled(init, today, fetch)| {
          assert settled[k] == Settled(init, today, fetch)[k];
          var j :| 0 <= j < |init| && Resolvable(init[j], today, fetch) && settled[k] == Resolve(init[j], fetch);
          assert s[j] == init[j];
        } else {
          assert settled[k] == Resolve(s[|s| - 1], fetch);
        }
      }
    }
  }

  /** Each entry of the pass either stays active unchanged or reaches the
      history with its verification attached. */
  lemma {:induction false} PassAccountsFor(s: seq<Forecast>, today: Date, fetch: string -> Option<real>, f: Forecast)
    requires PositiveQuotes(fetch)
    requires f in s
    ensures Resolvable(f, today, fetch) ==> Resolve(f, fetch) in Settled(s, today, fetch)
    ensures !Resolvable(f, today, fetch) ==> f in Kept(s, today, fetch)
  {
    var init := s[..|s| - 1];
    assert s == init + [s[|s| - 1]];
    PassStep(init, s[|s| - 1], today, fetch, 0.0);
    if f != s[|s| - 1] {
      PassAccountsFor(init, today, fetch, f);
    }
  }

  lemma PendingStep(p: seq<Forecast>, x: Forecast, today: Date)
    ensures Pending(p + [x], today) == Pending(p, today) + (if Due(x, today) then [] else [x])
  {
  }

  /** Entries whose target date lies ahead stay active, with their relative order. */
  lemma {:induction false} PassKeepsPending(s: seq<Forecast>, today: Date, fetch: string -> Option<real>)
    ensures Pending(Kept(s, today, fetch), today) == Pending(s, today)
  {
    if s != [] {
      var init := s[..|s| - 1];
      var last := s[|s| - 1];
      assert s == init + [last];
      PassKeepsPending(init, today, fetch);
      var k := Kept(init, today, fetch);
      PendingStep(init, last, today);
      assert Kept(s, today, fetch) == k + (if Resolvable(last, today, fetch) then [] else [last]);
      if !Resolvable(last, today, fetch) {
        PendingStep(k, last, today);
        assert Pending(Kept(s, today, fetch), today) == Pending(k, today) + (if Due(last, today) then [] else [last]);
      } else {
        assert Kept(s, today, fetch) == k;
      }
    }
  }

  /** A pass over entries none of which can be verified changes nothing. */
  lemma {:induction false} IdlePass(s: seq<Forecast>, today: Date, fetch: string -> Option<real>, score: real)
    requires PositiveQuotes(fetch)
    requires forall k :: 0 <= k < |s| ==> !Resolvable(s[k], today, fetch)
    ensures Kept(s, today, fetch) == s
    ensures Settled(s, today, fetch) == []
    ensures ScoreAfter(score, s, today, fetch) == score
  {
    if s != [] {
      var init := s[..|s| - 1];
      assert s == init + [s[|s| - 1]];
      IdlePass(init, today, fetch, score);
    }
  }

  /** Repeating a pass with the same date and the same market data is a no-op. */
  lemma SecondPassIdle(s: seq<Forecast>, today: Date, fetch: string -> Option<real>, score: real)
    requires PositiveQuotes(fetch)
    ensures Kept(Kept(s, today, fetch), today, fetch) == Kept(s, today, fetch)
    ensures Settled(Kept(s, today, fetch), today, fetch) == []
    ensures ScoreAfter(score, Kept(s, today, fetch), today, fetch) == score
  {
    KeptUnresolvable(s, today, fetch);
    IdlePass(Kept(s, today, fetch), today, fetch, score);
  }

  /** Error percentages are never negative, so a score that starts at or
      below 100 stays at or below 100 through a pass. */
  lemma {:induction false} ScoreAtMost100(score: real, s: seq<Forecast>, today: Date, fetch: string -> Option<real>)
    requires PositiveQuotes(fetch)
    requires score <= 100.0
    ensures ScoreAfter(score, s, today, fetch) <= 100.0
  {
    if s != [] {
      ScoreAtMost100(score, s[..|s| - 1], today, fetch);
    }
  }

  /** The score is not clamped from below: one forecast three times the
      realized price drives a fresh score of 100 to -2890. */
  lemma ScoreUnclamped()
    ensures var f := Forecast(0, 0, "X", 300.0, 0.8, None);
            ScoreAfter(InitialAccuracy, [f], 0, t => Some(1.0)) == -2890.0
  {
    var f := Forecast(0, 0, "X", 300.0, 0.8, None);
    var fetch: string -> Option<real> := t => Some(1.0);
    assert [f][..0] == [];
    assert Resolve(f, fetch).outcome.value.errorPct == 29900.0;
  }

  /** A prediction of 100 against a realized 110 has error 100/11 percent and
      takes a fresh score of 100 to 100 - 10/11. */
  lemma VerifiedExample()
    ensures var f := Forecast(0, 5, "X", 100.0, 0.8, None);
            var fetch: string -> Option<real> := t => Some(110.0);
            && Settled([f], 5, fetch) == [f.(outcome := Some(Verification(110.0, 100.0 / 11.0)))]
            && ScoreAfter(InitialAccuracy, [f], 5, fetch) == 100.0 - 10.0 / 11.0
  {
    var f := Forecast(0, 5, "X", 100.0, 0.8, None);
    var fetch: string -> Option<real> := t => Some(110.0);
    assert [f][..0] == [];
    assert ErrorPct(100.0, 110.0) == 100.0 / 11.0;
  }

  /** The ledger invariant: every logged prediction is in exactly one of the
      two lists; active entries are unverified and history entries verified;
      the score never exceeds its starting value of 100. */
  ghost predicate WellFormed(score: real, total: nat, active: seq<Forecast>, history: seq<Forecast>)
  {
    && score <= 100.0
    && total == |active| + |history|
    && (forall k :: 0 <= k < |active| ==> active[k].outcome.None?)
    && (forall k :: 0 <= k < |history| ==> history[k].outcome.Some?)
  }

  /** A verification pass keeps the ledger invariant. */
  lemma PassPreservesInvariant(score: real, total: nat, active: seq<Forecast>, history: seq<Forecast>,
                               today: Date, fetch: string -> Option<real>)
    requires PositiveQuotes(fetch)
    requires WellFormed(score, total, active, history)
    ensures WellFormed(ScoreAfter(score, active, today, fetch), total,
                       Kept(active, today, fetch), history + Settled(active, today, fetch))
  {
    PassConservesCount(active, today, fetch);
    PassDrawsFrom(active, today, fetch);
    ScoreAtMost100(score, active, today, fetch);
    var settled := Settled(active, today, fetch);
    forall k | 0 <= k < |settled|
      ensures settled[k].outcome.Some?
    {
      assert ResolvedFrom(settled[k], active, today, fetch);
      var j :| 0 <= j < |active| && Resolvable(active[j], today, fetch) && settled[k] == Resolve(active[j], fetch);
    }
  }

  /** The ledger state of forecast_registry.py: score, counter and the two lists. */
  class ForecastRegistry {
    var accuracyScore: real
    var totalPredictions: nat
    var activeForecasts: seq<Forecast>
    var history: seq<Forecast>

    /** The ledger invariant, stated by WellFormed on the four fields. */
    ghost predicate Valid()
      reads this
    {
      WellFormed(accuracyScore, totalPredictions, activeForecasts, history)
    }

    /** The state of a ledger with no file on disk. */
    constructor ()
      ensures Valid()
      ensures accuracyScore == InitialAccuracy && totalPredictions == 0
      ensures activeForecasts == [] && history == []
    {
      accuracyScore := InitialAccuracy;
      totalPredictions := 0;
      activeForecasts := [];
      history := [];
    }

    /** Commits a prediction due `horizonDays` after `today`; returns its target date. */
    method LogPrediction(ticker: string, predictedPrice: real, horizonDays: int, confidence: real, today: Date)
      returns (targetDate: Date)
      requires Valid()
      modifies this
      ensures Valid()
      ensures targetDate == today + horizonDays
      ensures activeForecasts == old(activeForecasts) + [Forecast(today, targetDate, ticker, predictedPrice, confidence, None)]
      ensures totalPredictions == old(totalPredictions) + 1
      ensures history == old(history) && accuracyScore == old(accuracyScore)
    {
      var entry := Forecast(today, today + horizonDays, ticker, predictedPrice, confidence, None);
      activeForecasts := activeForecasts + [entry];
      totalPredictions := totalPredictions + 1;
      targetDate := entry.targetDate;
    }

    /** Checks every due active forecast against the market: verifies those
        with data, leaves the rest active, and updates the score per entry. */
    method VerifyForecasts(today: Date, fetch: string -> Option<real>)
      returns (verified: nat, currentAccuracy: real)
      requires Valid()
      requires PositiveQuotes(fetch)
      modifies this
      ensures Valid()
      ensures activeForecasts == Kept(old(activeForecasts), today, fetch)
      ensures history == old(history) + Settled(old(activeForecasts), today, fetch)
      ensures accuracyScore == ScoreAfter(old(accuracyScore), old(activeForecasts), today, fetch)
      ensures totalPredictions == old(totalPredictions)
      ensures verified == |Settled(old(activeForecasts), today, fetch)|
      ensures currentAccuracy == accuracyScore
    {
      var snapshot := activeForecasts;
      var verifiedCount := 0;
      assert activeForecasts == ActiveAt(snapshot, 0, today, fetch);
      for i := 0 to |snapshot|
        invariant activeForecasts == ActiveAt(snapshot, i, today, fetch)
        invariant history == old(history) + Settled(snapshot[..i], today, fetch)
        invariant accuracyScore == ScoreAfter(old(accuracyScore), snapshot[..i], today, fetch)
        invariant verifiedCount == |Settled(snapshot[..i], today, fetch)|
        invariant totalPredictions == old(totalPredictions)
      {
        var forecast := snapshot[i];
        if forecast.targetDate <= today {
          var quote := fetch(forecast.ticker);
          if quote.None? {
            SkippedStepAt(snapshot, i, today, fetch, old(accuracyScore));
            continue;
          }
          VerifiedStepAt(snapshot, i, today, fetch, old(accuracyScore), old(history));
          var realPrice := quote.value;
          var percentError := ErrorPct(forecast.predictedPrice, realPrice);
          var settled := forecast.(outcome := Some(Verification(realPrice, percentError)));
          assert settled == Resolve(forecast, fetch);
          history := history + [settled];
          activeForecasts := RemoveFirst(activeForecasts, forecast);
          accuracyScore := NextScore(accuracyScore, percentError);
          verifiedCount := verifiedCount + 1;
        } else {
          SkippedStepAt(snapshot, i, today, fetch, old(accuracyScore));
        }
      }
      assert snapshot[..|snapshot|] == snapshot;
      PassPreservesInvariant(old(accuracyScore), totalPredictions, snapshot, old(history), today, fetch);
      verified := verifiedCount;
      currentAccuracy := accuracyScore;
    }
  }
}
