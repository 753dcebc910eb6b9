/**
 Typed checkpoints: the validator of a checkpoint contract (analytics/contracts.py), the
 coverage of a metric and the classification of a metric against its checkpoint
 (analytics/phase6.py).  Times are in microseconds, thresholds are reals.
 */
module Checkpoints {
  import opened Basics

  const SECOND := 1_000_000
  const HOUR := 3600 * SECOND
  /** The longest pause between polls that is not taken for a gap. */
  const GAP := 23 * HOUR

  datatype Operator = GTE | GT | LTE | LT | EQ

  datatype Threshold = Threshold(operator: Operator, value: real)

  datatype Spec = Spec(windowSeconds: int, graceSeconds: int, success: Threshold, weak: Threshold, failure: Threshold)

  /** Field bounds and the validator. */
  predicate Accepted(s: Spec) {
    && 1 <= s.windowSeconds <= 86400 && 0 <= s.graceSeconds <= 3600
    && s.success.value >= 0.0 && s.weak.value >= 0.0 && s.failure.value >= 0.0
    && s.success.operator.GTE? && s.weak.operator.GTE?
    && s.failure.operator.EQ? && s.failure.value == 0.0
    && s.success.value > s.weak.value > 0.0
  }

  predicate Matches(t: Threshold, value: real) {
    match t.operator
    case GTE => value >= t.value
    case GT => value > t.value
    case LTE => value <= t.value
    case LT => value < t.value
    case EQ => value == t.value
  }

  /** The operators come in complements, and EQ is both of the closed ones. */
  lemma OperatorsComplement(bound: real, value: real)
    ensures Matches(Threshold(GTE, bound), value) <==> !Matches(Threshold(LT, bound), value)
    ensures Matches(Threshold(LTE, bound), value) <==> !Matches(Threshold(GT, bound), value)
    ensures Matches(Threshold(EQ, bound), value) <==>
      Matches(Threshold(GTE, bound), value) && Matches(Threshold(LTE, bound), value)
    ensures Matches(Threshold(GTE, bound), value) <==> bound <= value
    ensures Matches(Threshold(LTE, bound), value) <==> value <= bound
  {}

  /** Some accepted contract has this window and this grace period. */
  ghost predicate Offerable(window: int, grace: int) {
    exists s :: Accepted(s) && s.windowSeconds == window && s.graceSeconds == grace
  }

  /** Windows run from a second to a day, grace periods up to an hour, and all of these are offered. */
  lemma OfferableIff(window: int, grace: int)
    ensures Offerable(window, grace) <==> 0 < window <= 24 * 3600 && 0 <= grace <= 3600
  {
    if 0 < window <= 24 * 3600 && 0 <= grace <= 3600 {
      assert Accepted(Spec(window, grace, Threshold(GTE, 2.0), Threshold(GTE, 1.0), Threshold(EQ, 0.0)));
    }
  }

  datatype Availability = AVAILABLE | PARTIAL | STALE | UNAVAILABLE

  datatype Coverage = COMPLETE | PARTLY | OUTDATED | ABSENT

  /** The observation state of a connector account, as far as coverage reads it. */
  datatype FeedState = FeedState(
    coverageStartedAt: int,
    lastUpdateId: Option<int>,
    lastIngestAt: Option<int>,
    gapDetected: bool)

  function MetricCoverage(state: Option<FeedState>, windowStart: int, windowEnd: int, graceSeconds: int, now: int)
      : (Availability, Coverage)
  {
    if state.None? || state.value.lastIngestAt.None? then (UNAVAILABLE, ABSENT)
    else
      var last := state.value.lastIngestAt.value;
      if state.value.coverageStartedAt > windowStart then (UNAVAILABLE, ABSENT)
      else if state.value.gapDetected then (PARTIAL, PARTLY)
      else if now - last > GAP then (STALE, OUTDATED)
      else if last < windowEnd + graceSeconds * SECOND then (PARTIAL, PARTLY)
      else (AVAILABLE, COMPLETE)
  }

  /** The feed saw something, and had been configured when the window opened. */
  predicate Watched(state: Option<FeedState>, start: int) {
    state.Some? && state.value.lastIngestAt.Some? && state.value.coverageStartedAt <= start
  }

  /** The four answers, each with exactly the states of the feed that get it: a gap goes before a pause of more
      than 23 hours since the last poll, and that before a last poll within the window or its grace period. */
  lemma CoverageIff(state: Option<FeedState>, start: int, end: int, grace: int, now: int)
    ensures
      var (availability, coverage) := MetricCoverage(state, start, end, grace, now);
      && (availability == UNAVAILABLE <==> !Watched(state, start))
      && (availability == STALE <==>
            && Watched(state, start) && !state.value.gapDetected
            && now - state.value.lastIngestAt.value > 23 * 3600 * 1_000_000)
      && (availability == PARTIAL <==>
            && Watched(state, start)
            && (state.value.gapDetected
                || (now - state.value.lastIngestAt.value <= 23 * 3600 * 1_000_000
                    && state.value.lastIngestAt.value < end + grace * 1_000_000)))
      && coverage == (match availability
                      case AVAILABLE => COMPLETE
                      case PARTIAL => PARTLY
                      case STALE => OUTDATED
                      case UNAVAILABLE => ABSENT)
  {}

  /** What a caller may rely on when the metric is AVAILABLE, and nothing less gives it. */
  lemma AvailableMeans(state: Option<FeedState>, start: int, end: int, grace: int, now: int)
    ensures
      var (availability, coverage) := MetricCoverage(state, start, end, grace, now);
      && (availability.AVAILABLE? <==> coverage.COMPLETE?)
      && (availability.AVAILABLE? <==>
            && Watched(state, start) && !state.value.gapDetected
            && end + grace * 1_000_000 <= state.value.lastIngestAt.value
            && now <= state.value.lastIngestAt.value + 23 * 3600 * 1_000_000)
  {}

  /** The part of a metric version that is interpreted. */
  datatype Reading = Reading(value: Option<real>, availability: Availability, coverage: Coverage)

  /** The value the calculator stores for an observed count. */
  function StoredValue(availability: Availability, count: nat): Option<real> {
    if availability.AVAILABLE? || count > 0 then Some(count as real) else None
  }

  datatype ResultClass = INSUFFICIENT_DATA | FAILURE | WEAK_SIGNAL | SUCCESS

  function Classify(s: Spec, m: Reading): Result<ResultClass> {
    if !m.availability.AVAILABLE? || !m.coverage.COMPLETE? then Ok(INSUFFICIENT_DATA)
    else if m.value.None? then Err(AvailableWithoutValue)
    else if Matches(s.success, m.value.value) then Ok(SUCCESS)
    else if Matches(s.weak, m.value.value) then Ok(WEAK_SIGNAL)
    else if Matches(s.failure, m.value.value) then Ok(FAILURE)
    else Err(NonExhaustive)
  }

  function Complete(count: nat): Reading { Reading(Some(count as real), AVAILABLE, COMPLETE) }

  /** Which readings give no class: those that are not complete are insufficient, whatever their value; a complete
      one without a value is an error. */
  lemma UnclassifiedIff(s: Spec, m: Reading)
    requires Accepted(s)
    ensures Classify(s, m) == Ok(INSUFFICIENT_DATA) <==> !(m.availability == AVAILABLE && m.coverage == COMPLETE)
    ensures Classify(s, m) == Err(AvailableWithoutValue) <==>
      m.availability == AVAILABLE && m.coverage == COMPLETE && m.value == None
  {}

  /** How an accepted contract splits the counts: zero, a gap nothing classifies, weak, success. */
  lemma CountsSplit(s: Spec, n: nat)
    requires Accepted(s)
    ensures Classify(s, Complete(n)) == Ok(FAILURE) <==> n == 0
    ensures Classify(s, Complete(n)) == Err(NonExhaustive) <==> 0 < n && n as real < s.weak.value
    ensures Classify(s, Complete(n)) == Ok(WEAK_SIGNAL) <==> s.weak.value <= n as real < s.success.value
    ensures Classify(s, Complete(n)) == Ok(SUCCESS) <==> s.success.value <= n as real
    ensures Classify(s, Complete(n)) != Ok(INSUFFICIENT_DATA)
  {}

  function Rank(c: ResultClass): nat {
    match c case INSUFFICIENT_DATA => 0 case FAILURE => 1 case WEAK_SIGNAL => 2 case SUCCESS => 3
  }

  /** More reactions never give a worse class. */
  lemma ClassIsMonotone(s: Spec, n: nat, m: nat)
    requires Accepted(s) && n <= m
    requires Classify(s, Complete(n)).Ok? && Classify(s, Complete(m)).Ok?
    ensures Rank(Classify(s, Complete(n)).value) <= Rank(Classify(s, Complete(m)).value)
  {
    CountsSplit(s, n);
    CountsSplit(s, m);
  }

  ghost predicate Exhaustive(s: Spec) { forall n: nat :: Classify(s, Complete(n)).Ok? }

  /** Every count is classified exactly when one reaction already is a weak signal. */
  lemma ExhaustiveIff(s: Spec)
    requires Accepted(s)
    ensures Exhaustive(s) <==> s.weak.value <= 1.0
  {
    CountsSplit(s, 1);
    if s.weak.value <= 1.0 {
      forall n: nat
        ensures Classify(s, Complete(n)).Ok?
      {
        CountsSplit(s, n);
      }
    } else {
      assert Complete(1).value == Some(1.0);
      assert Classify(s, Complete(1)) == Err(NonExhaustive);
    }
  }

  /** The calculator never stores an available metric without a value, whatever the feed state;
      an interpretation of its metrics fails only in the gap. */
  lemma CalculatedReadingFailsOnlyInGap(s: Spec, state: Option<FeedState>, start: int, end: int, now: int, count: nat)
    requires Accepted(s)
    ensures
      var (availability, coverage) := MetricCoverage(state, start, end, s.graceSeconds, now);
      var c := Classify(s, Reading(StoredValue(availability, count), availability, coverage));
      && c != Err(AvailableWithoutValue)
      && (c.Err? <==> availability.AVAILABLE? && 0 < count && count as real < s.weak.value)
      && (c == Ok(INSUFFICIENT_DATA) <==> !availability.AVAILABLE?)
  {
    AvailableMeans(state, start, end, s.graceSeconds, now);
    var (availability, coverage) := MetricCoverage(state, start, end, s.graceSeconds, now);
    if availability.AVAILABLE? {
      assert Reading(StoredValue(availability, count), availability, coverage) == Complete(count);
      CountsSplit(s, count);
    }
  }
}
