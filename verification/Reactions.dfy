/**
 What incremental polling adds up to (analytics/phase6.py): an AVAILABLE metric counts every
 true reaction once, under stated assumptions on the provider and the clock, and the stored
 rows do not depend on how the updates were split into polls.
 */
module Reactions {
  import opened Basics
  import opened Checkpoints
  import opened Observation
  import Sorting

  // ------------------------------------------------------------ what the provider does

  /** An update together with the time from which the provider offers it. */
  datatype Emission = Emission(update: Update, at: int)

  /** Ids identify updates and grow with emission time. */
  predicate Ordered(stream: set<Emission>) {
    forall a, b :: a in stream && b in stream ==>
      && (a.at < b.at ==> a.update.id < b.update.id)
      && (a.update.id == b.update.id ==> a == b)
  }

  /** Reactions are offered no earlier than they happen and at most delay later. */
  predicate Prompt(stream: set<Emission>, delay: int) {
    forall e :: e in stream && !e.update.kind.ChannelPost? ==> e.update.date <= e.at <= e.update.date + delay
  }

  ghost predicate Emitted(stream: set<Emission>, u: Update, until: int) {
    exists e :: e in stream && e.update == u && e.at <= until
  }

  /** The provider must answer with this emission at this time. */
  predicate Due(s: Store, e: Emission, fetch: int)
    requires s.state.Some?
  {
    && e.update.kind in s.allowed && e.at <= fetch && fetch - e.at <= RETENTION
    && (Offset(s.state.value).Some? ==> e.update.id >= Offset(s.state.value).value)
  }

  /** A committed poll: takes at most d, after the previous one, and gets every retained allowed
      update from the offset on and nothing that was not emitted. */
  ghost predicate HonestPoll(stream: set<Emission>, d: int, s: Store, q: Event)
    requires q.PollAt? && PollCommits(s, q.response)
  {
    && q.start <= q.fetch <= q.done <= q.start + d
    && (s.polls != [] ==> s.polls[|s.polls| - 1].done <= q.start)
    && (forall u :: Proper(u) in q.response.value ==> Emitted(stream, u, q.fetch))
    && (forall e :: e in stream && Due(s, e, q.fetch) ==> Proper(e.update) in q.response.value)
  }

  /** Every update of the answer that belongs to a publication finds its reference already there. */
  predicate LinkedAtIngest(refs: map<nat, Ref>, s: Store, raws: seq<Raw>) {
    forall i :: 0 <= i < |raws| && raws[i].Proper? && Resolve(refs, raws[i].update).Some? ==>
      raws[i].update.message.value in s.refs
  }

  ghost predicate Faithful(stream: set<Emission>, d: int, refs: map<nat, Ref>, s: Store, e: Event) {
    && (e.PollAt? && PollCommits(s, e.response) ==>
          HonestPoll(stream, d, s, e) && LinkedAtIngest(refs, s, e.response.value))
    && (e.Configure? ==> Reaction in e.allowed && ReactionCount in e.allowed)
  }

  ghost predicate FaithfulRun(stream: set<Emission>, d: int, refs: map<nat, Ref>, es: seq<Event>) {
    |es| > 0 ==>
      && FaithfulRun(stream, d, refs, es[..|es| - 1])
      && Faithful(stream, d, refs, Run(INIT, es[..|es| - 1]), es[|es| - 1])
  }

  // ------------------------------------------------------------ what polling keeps

  /** The row comes from the stream and carries the publication its message has in the end. */
  ghost predicate KnownRow(stream: set<Emission>, refs: map<nat, Ref>, r: Rows, i: nat)
    requires i < |r.observations| && i < |r.events|
  {
    && (exists e :: e in stream && e.update == r.observations[i].update)
    && r.events[i].publication == Resolve(refs, r.observations[i].update)
  }

  ghost predicate Known(stream: set<Emission>, refs: map<nat, Ref>, r: Rows) {
    forall i :: 0 <= i < |r.observations| && i < |r.events| ==> KnownRow(stream, refs, r, i)
  }

  /** The stored offset is the id of something already emitted at the last fetch. */
  ghost predicate OffsetOk(stream: set<Emission>, s: Store) {
    s.state.Some? && s.state.value.lastUpdateId.Some? ==>
      && s.polls != []
      && exists e :: e in stream && e.update.id == s.state.value.lastUpdateId.value
                     && e.at <= s.polls[|s.polls| - 1].fetch
  }

  predicate PollTimesOk(d: int, polls: seq<Poll>) {
    forall i :: 0 <= i < |polls| ==> polls[i].start <= polls[i].fetch <= polls[i].done <= polls[i].start + d
  }

  /** Nothing retained at the first fetch and emitted by the last one is missing. */
  ghost predicate Complete(stream: set<Emission>, s: Store) {
    s.state.Some? && !s.state.value.gapDetected && s.polls != [] ==>
      forall e :: e in stream && !e.update.kind.ChannelPost?
                  && s.polls[0].fetch - RETENTION <= e.at <= s.polls[|s.polls| - 1].fetch ==>
        Seen(s.rows, e.update)
  }

  ghost predicate Covered(stream: set<Emission>, d: int, refs: map<nat, Ref>, s: Store) {
    && Inv(s) && Known(stream, refs, s.rows) && OffsetOk(stream, s) && PollTimesOk(d, s.polls) && Complete(stream, s)
    && (s.state.Some? ==> Reaction in s.allowed && ReactionCount in s.allowed)
  }

  predicate Submap(a: map<nat, Ref>, b: map<nat, Ref>) { forall m :: m in a ==> m in b && a[m] == b[m] }

  lemma RefsGrow(s: Store, e: Event)
    ensures Submap(s.refs, Step(s, e).refs)
  {}

  /** A reference present at ingestion resolves as it will in the end. */
  lemma ResolveIsStable(a: map<nat, Ref>, b: map<nat, Ref>, u: Update)
    requires Submap(a, b) && (Resolve(b, u).Some? ==> u.message.value in a)
    ensures Resolve(a, u) == Resolve(b, u)
  {}

  lemma ResponseIsConsistent(stream: set<Emission>, d: int, refs: map<nat, Ref>, s: Store, q: Event)
    requires Ordered(stream) && Covered(stream, d, refs, s) && q.PollAt? && PollCommits(s, q.response)
    requires HonestPoll(stream, d, s, q)
    ensures Consistent(s.rows, Batch(q.response.value))
  {
    var us := Batch(q.response.value);
    forall i | 0 <= i < |us|
      ensures Emitted(stream, us[i], q.fetch)
    {
      BatchKeepsElements(q.response.value, us[i]);
    }
    forall i, k | 0 <= i < |us| && 0 <= k < |s.rows.observations| && us[i].id == s.rows.observations[k].update.id
      ensures us[i] == s.rows.observations[k].update
    {
      assert Emitted(stream, us[i], q.fetch) && KnownRow(stream, refs, s.rows, k);
    }
    forall i, k | 0 <= i < |us| && 0 <= k < |us| && us[i].id == us[k].id
      ensures us[i] == us[k]
    {
      assert Emitted(stream, us[i], q.fetch) && Emitted(stream, us[k], q.fetch);
    }
  }

  lemma PollKeepsKnown(stream: set<Emission>, d: int, refs: map<nat, Ref>, s: Store, q: Event)
    requires Ordered(stream) && Covered(stream, d, refs, s) && q.PollAt? && PollCommits(s, q.response)
    requires HonestPoll(stream, d, s, q) && LinkedAtIngest(refs, s, q.response.value) && Submap(s.refs, refs)
    ensures Known(stream, refs, Step(s, q).rows)
  {
    var raws := q.response.value;
    var us := Batch(raws);
    var v := Step(s, q).rows;
    ResponseIsConsistent(stream, d, refs, s, q);
    IngestAllSpec(s.rows, s.refs, us, q.done);
    forall i | 0 <= i < |v.observations| && i < |v.events|
      ensures KnownRow(stream, refs, v, i)
    {
      var u := v.observations[i].update;
      if i < |s.rows.observations| {
        assert KnownRow(stream, refs, s.rows, i);
        assert u == s.rows.observations[i].update && v.events[i] == s.rows.events[i];
      } else {
        assert Seen(v, u);
        assert forall k :: 0 <= k < |s.rows.observations| ==> s.rows.observations[k] == v.observations[k];
        assert !Seen(s.rows, u);
        BatchKeepsElements(raws, u);
        assert Emitted(stream, u, q.fetch);
        ResolveIsStable(s.refs, refs, u);
      }
    }
  }

  lemma PollKeepsOffset(stream: set<Emission>, d: int, s: Store, q: Event)
    requires OffsetOk(stream, s) && q.PollAt? && PollCommits(s, q.response) && HonestPoll(stream, d, s, q)
    requires PollTimesOk(d, s.polls)
    ensures OffsetOk(stream, Step(s, q))
  {
    var us := Batch(q.response.value);
    var last := s.state.value.lastUpdateId;
    MaxIdSpec(last, us);
    var v := Step(s, q);
    assert v.polls[|v.polls| - 1].fetch == q.fetch;
    if MaxId(last, us) != last {
      var i :| 0 <= i < |us| && MaxId(last, us) == Some(us[i].id);
      BatchKeepsElements(q.response.value, us[i]);
      assert Emitted(stream, us[i], q.fetch);
    }
  }

  /** Without a gap, what was emitted since the last fetch is still retained and past the offset. */
  lemma NewEmissionIsDue(stream: set<Emission>, d: int, refs: map<nat, Ref>, s: Store, q: Event, e: Emission)
    requires Ordered(stream) && Covered(stream, d, refs, s) && 2 * d <= HOUR
    requires q.PollAt? && PollCommits(s, q.response) && HonestPoll(stream, d, s, q)
    requires s.polls != [] && !SeesGap(s.state.value, q.start)
    requires e in stream && !e.update.kind.ChannelPost? && s.polls[|s.polls| - 1].fetch < e.at <= q.fetch
    ensures Due(s, e, q.fetch)
  {
    var before := s.polls[|s.polls| - 1];
    assert before.start <= before.fetch <= before.done <= before.start + d;
    if s.state.value.lastUpdateId.Some? {
      var last :| last in stream && last.update.id == s.state.value.lastUpdateId.value && last.at <= before.fetch;
      assert last.update.id < e.update.id;
    }
  }

  lemma PollKeepsComplete(stream: set<Emission>, d: int, refs: map<nat, Ref>, s: Store, q: Event)
    requires Ordered(stream) && Covered(stream, d, refs, s) && (s.polls != [] ==> 2 * d <= HOUR)
    requires q.PollAt? && PollCommits(s, q.response) && HonestPoll(stream, d, s, q)
    ensures Complete(stream, Step(s, q))
  {
    var raws := q.response.value;
    var v := Step(s, q);
    ResponseIsConsistent(stream, d, refs, s, q);
    IngestAllSpec(s.rows, s.refs, Batch(raws), q.done);
    if !v.state.value.gapDetected {
      forall e | e in stream && !e.update.kind.ChannelPost?
                 && v.polls[0].fetch - RETENTION <= e.at <= v.polls[|v.polls| - 1].fetch
        ensures Seen(v.rows, e.update)
      {
        assert v.polls[|v.polls| - 1].fetch == q.fetch;
        if s.polls != [] && e.at <= s.polls[|s.polls| - 1].fetch {
          assert Seen(s.rows, e.update);
        } else {
          if s.polls != [] {
            NewEmissionIsDue(stream, d, refs, s, q, e);
          } else {
            assert s.state.value.lastUpdateId.None?;
          }
          assert Due(s, e, q.fetch);
          BatchKeepsElements(raws, e.update);
        }
      }
    }
  }

  lemma IdleStepKeepsCovered(stream: set<Emission>, d: int, refs: map<nat, Ref>, s: Store, e: Event)
    requires Covered(stream, d, refs, s) && Faithful(stream, d, refs, s, e) && Inv(Step(s, e))
    requires !(e.PollAt? && PollCommits(s, e.response)) && Step(s, e).rows == s.rows && Step(s, e).polls == s.polls
    ensures Covered(stream, d, refs, Step(s, e))
  {
    var v := Step(s, e);
    assert s.state.Some? ==> v.state == s.state;
    assert Known(stream, refs, v.rows);
  }

  lemma StepKeepsCovered(stream: set<Emission>, d: int, refs: map<nat, Ref>, s: Store, e: Event)
    requires Ordered(stream) && Covered(stream, d, refs, s) && (s.polls != [] ==> 2 * d <= HOUR)
    requires Faithful(stream, d, refs, s, e) && Submap(s.refs, refs)
    ensures Covered(stream, d, refs, Step(s, e))
  {
    StepKeepsInv(s, e);
    if e.PollAt? && PollCommits(s, e.response) {
      PollKeepsKnown(stream, d, refs, s, e);
      PollKeepsOffset(stream, d, s, e);
      PollKeepsComplete(stream, d, refs, s, e);
    } else {
      StepKeepsRows(s, e);
      IdleStepKeepsCovered(stream, d, refs, s, e);
    }
  }

  lemma {:induction false} RunKeepsCovered(stream: set<Emission>, d: int, refs: map<nat, Ref>, es: seq<Event>)
    requires Ordered(stream) && 2 * d <= HOUR
    requires FaithfulRun(stream, d, refs, es) && Submap(Run(INIT, es).refs, refs)
    ensures Covered(stream, d, refs, Run(INIT, es))
  {
    if |es| > 0 {
      var p := es[..|es| - 1];
      RefsGrow(Run(INIT, p), es[|es| - 1]);
      RunKeepsCovered(stream, d, refs, p);
      StepKeepsCovered(stream, d, refs, Run(INIT, p), es[|es| - 1]);
    }
  }

  // ------------------------------------------------------------ counting

  /** The reactions to publication p that really happened from start to end. */
  function TrueReactions(stream: set<Emission>, refs: map<nat, Ref>, p: nat, start: int, end: int): set<Emission> {
    set e | e in stream && e.update.kind in {Reaction, ReactionCount} && start <= e.update.date <= end
            && About(e.update, refs, p)
  }

  ghost function MatchingSet(events: seq<BusinessEvent>, n: nat, p: nat, start: int, end: int): set<nat>
    requires n <= |events|
  {
    set i: nat | i < n && Included(events[i], p, start, end)
  }

  lemma {:induction false} MatchingIsSet(events: seq<BusinessEvent>, n: nat, p: nat, start: int, end: int)
    requires n <= |events|
    ensures |Matching(events, n, p, start, end)| == |MatchingSet(events, n, p, start, end)|
  {
    if n > 0 {
      MatchingIsSet(events, n - 1, p, start, end);
      var before := MatchingSet(events, n - 1, p, start, end);
      if Included(events[n - 1], p, start, end) {
        assert MatchingSet(events, n, p, start, end) == before + {n - 1};
      } else {
        assert MatchingSet(events, n, p, start, end) == before;
      }
    }
  }

  lemma EventIdsCount(events: seq<BusinessEvent>, p: nat, start: int, end: int)
    ensures |EventIds(events, p, start, end)| == |MatchingSet(events, |events|, p, start, end)|
  {
    MatchingIsSet(events, |events|, p, start, end);
    Sorting.SortPermutes(Matching(events, |events|, p, start, end), ByTime(events));
  }

  ghost function PositionIds(r: Rows, positions: set<nat>): set<int>
    requires forall i :: i in positions ==> i < |r.observations|
  {
    set i | i in positions :: r.observations[i].update.id
  }

  ghost function EmissionIds(emissions: set<Emission>): set<int> { set e | e in emissions :: e.update.id }

  lemma {:induction false} PositionsHaveOwnIds(r: Rows, positions: set<nat>)
    requires RowsOk(r) && forall i :: i in positions ==> i < |r.observations|
    ensures |PositionIds(r, positions)| == |positions|
  {
    if positions != {} {
      var i :| i in positions;
      PositionsHaveOwnIds(r, positions - {i});
      var id := r.observations[i].update.id;
      assert id !in PositionIds(r, positions - {i});
      assert PositionIds(r, positions) == PositionIds(r, positions - {i}) + {id};
    }
  }

  lemma {:induction false} EmissionsHaveOwnIds(emissions: set<Emission>)
    requires Ordered(emissions)
    ensures |EmissionIds(emissions)| == |emissions|
  {
    if emissions != {} {
      var e :| e in emissions;
      EmissionsHaveOwnIds(emissions - {e});
      assert EmissionIds(emissions) == EmissionIds(emissions - {e}) + {e.update.id};
    }
  }

  /** Positions and emissions that carry the same updates are equally many. */
  lemma SameSize(r: Rows, positions: set<nat>, emissions: set<Emission>)
    requires RowsOk(r) && Ordered(emissions)
    requires forall i :: i in positions ==>
      i < |r.observations| && exists e :: e in emissions && e.update == r.observations[i].update
    requires forall e :: e in emissions ==>
      exists i :: i in positions && i < |r.observations| && r.observations[i].update == e.update
    ensures |positions| == |emissions|
  {
    PositionsHaveOwnIds(r, positions);
    EmissionsHaveOwnIds(emissions);
    assert PositionIds(r, positions) == EmissionIds(emissions);
  }

  lemma CountIsTrue(stream: set<Emission>, s: Store, p: nat, start: int, end: int)
    requires Ordered(stream) && RowsOk(s.rows) && Known(stream, s.refs, s.rows)
    requires forall e :: e in TrueReactions(stream, s.refs, p, start, end) ==> Seen(s.rows, e.update)
    ensures |EventIds(s.rows.events, p, start, end)| == |TrueReactions(stream, s.refs, p, start, end)|
  {
    var r := s.rows;
    var truth := TrueReactions(stream, s.refs, p, start, end);
    var positions := MatchingSet(r.events, |r.events|, p, start, end);
    forall i | i in positions
      ensures exists e :: e in truth && e.update == r.observations[i].update
    {
      assert RowOk(r, i) && KnownRow(stream, s.refs, r, i);
      var e :| e in stream && e.update == r.observations[i].update;
      ResolvesIff(e.update, s.refs, p);
      assert e in truth;
    }
    forall e | e in truth
      ensures exists i :: i in positions && i < |r.observations| && r.observations[i].update == e.update
    {
      assert Seen(r, e.update);
      var i: nat :| i < |r.observations| && r.observations[i].update == e.update;
      assert RowOk(r, i) && KnownRow(stream, s.refs, r, i);
      ResolvesIff(e.update, s.refs, p);
      assert i in positions;
    }
    SameSize(r, positions, truth);
    EventIdsCount(r.events, p, start, end);
  }

  /** The publication has a checkpoint to measure it by. */
  predicate Measured(s: Store, p: nat) { p in s.publications && s.publications[p].contract.Some? }

  /** The reactions to the publication from its going out until the end of its checkpoint's window. */
  function Truth(stream: set<Emission>, s: Store, p: nat): set<Emission>
    requires Measured(s, p)
  {
    var published := s.publications[p].publishedAt;
    TrueReactions(stream, s.refs, p, published,
                  published + s.publications[p].contract.value.windowSeconds * 1_000_000)
  }

  predicate Available(s: Store, p: nat, now: int) {
    DerivationOf(s, p, now).Some? && DerivationOf(s, p, now).value.availability == AVAILABLE
  }

  /** The provider's delay and the length of a poll fit into the grace period, and the first poll came while
      everything since the publication was retained. */
  predicate InTime(s: Store, p: nat, delay: int, d: int)
    requires Measured(s, p)
  {
    && delay + d <= s.publications[p].contract.value.graceSeconds * 1_000_000
    && (s.polls != [] ==> s.polls[0].fetch - s.publications[p].publishedAt <= RETENTION)
  }

  /** The newest stored version, once calculated, reads as complete with the true count; it is this
      reading that an interpretation classifies. */
  ghost predicate MetricIsTrue(stream: set<Emission>, s: Store, p: nat, now: int)
    requires Measured(s, p)
  {
    var stored := Latest(MetricsOf(AfterCalculate(s, p, now), p));
    && stored.Some? && Some(stored.value.derivation) == DerivationOf(s, p, now)
    && stored.value.value == Some(|Truth(stream, s, p)| as real)
    && stored.value.derivation.availability == AVAILABLE && stored.value.derivation.coverage == COMPLETE
  }

  lemma WrongCountIsUntrue(stream: set<Emission>, s: Store, p: nat, now: int)
    requires MetricsOk(s) && Measured(s, p)
    requires |DerivationOf(s, p, now).value.events| != |Truth(stream, s, p)|
    ensures !MetricIsTrue(stream, s, p, now)
  {
    StoredMetric(s, p, now);
  }

  lemma CoveredMetricIsTrue(stream: set<Emission>, delay: int, d: int, s: Store, p: nat, now: int)
    requires Ordered(stream) && Prompt(stream, delay) && Covered(stream, d, s.refs, s)
    requires Measured(s, p) && Available(s, p, now) && InTime(s, p, delay, d)
    ensures MetricIsTrue(stream, s, p, now)
  {
    EveryReactionSeen(stream, delay, d, s, p, now);
    EventsAreTruth(stream, s, p, now);
    AvailableIsComplete(s, p, now);
    StoredMetric(s, p, now);
  }

  lemma EventsAreTruth(stream: set<Emission>, s: Store, p: nat, now: int)
    requires Ordered(stream) && RowsOk(s.rows) && Known(stream, s.refs, s.rows) && Measured(s, p)
    requires forall e :: e in Truth(stream, s, p) ==> Seen(s.rows, e.update)
    ensures DerivationOf(s, p, now).Some?
    ensures |DerivationOf(s, p, now).value.events| == |Truth(stream, s, p)|
  {
    var published := s.publications[p].publishedAt;
    CountIsTrue(stream, s, p, published, published + s.publications[p].contract.value.windowSeconds * 1_000_000);
  }

  lemma AvailableIsComplete(s: Store, p: nat, now: int)
    requires Available(s, p, now)
    ensures DerivationOf(s, p, now).value.coverage == COMPLETE
  {}

  /** No lost reactions: in every faithful run, an AVAILABLE metric holds the number of reaction
      updates that truly happened in the window, each counted once. */
  lemma NoLostReactions(stream: set<Emission>, delay: int, d: int, es: seq<Event>, p: nat, now: int)
    requires Ordered(stream) && Prompt(stream, delay)
    requires FaithfulRun(stream, d, Run(INIT, es).refs, es) && 2 * d <= HOUR
    requires Measured(Run(INIT, es), p) && Available(Run(INIT, es), p, now) && InTime(Run(INIT, es), p, delay, d)
    ensures MetricIsTrue(stream, Run(INIT, es), p, now)
  {
    RunKeepsCovered(stream, d, Run(INIT, es).refs, es);
    CoveredMetricIsTrue(stream, delay, d, Run(INIT, es), p, now);
  }

  lemma EveryReactionSeen(stream: set<Emission>, delay: int, d: int, s: Store, p: nat, now: int)
    requires Prompt(stream, delay) && HistoryOk(s) && Complete(stream, s) && PollTimesOk(d, s.polls)
    requires Measured(s, p) && Available(s, p, now) && InTime(s, p, delay, d)
    ensures forall e :: e in Truth(stream, s, p) ==> Seen(s.rows, e.update)
  {
    var m := DerivationOf(s, p, now).value;
    DerivationDescribes(s, p, now);
    AvailableMeans(s.state, m.windowStart, m.windowEnd, m.contract.graceSeconds, now);
    var last := s.polls[|s.polls| - 1];
    assert last.start <= last.fetch <= last.done <= last.start + d;
    forall e | e in Truth(stream, s, p)
      ensures Seen(s.rows, e.update)
    {
      assert e.update.date <= e.at <= e.update.date + delay;
      assert s.polls[0].fetch - RETENTION <= e.at <= last.fetch;
    }
  }

  /** After a calculation the newest stored version is the one for the current derivation. */
  lemma StoredMetric(s: Store, p: nat, now: int)
    requires MetricsOk(s) && DerivationOf(s, p, now).Some?
    ensures
      var d := DerivationOf(s, p, now).value;
      var stored := Latest(MetricsOf(AfterCalculate(s, p, now), p));
      stored.Some? && stored.value.derivation == d && stored.value.value == StoredValue(d.availability, |d.events|)
  {
    CalculateKeepsChain(s, p, now);
    LatestIsLast(MetricsOf(AfterCalculate(s, p, now), p));
  }

  // ------------------------------------------------------------ batching

  predicate AllPolls(es: seq<Event>) { forall i :: 0 <= i < |es| ==> es[i].PollAt? }

  /** The updates that committed polls brought in. */
  function Fed(es: seq<Event>): set<Update>
    requires AllPolls(es)
  {
    if |es| == 0 then {}
    else
      var response := es[|es| - 1].response;
      Fed(es[..|es| - 1]) +
      if response.Some? && AllProper(response.value) then (set u | u in Batch(response.value)) else {}
  }

  predicate OneUpdatePerId(us: set<Update>) { forall a, b :: a in us && b in us && a.id == b.id ==> a == b }

  ghost predicate IsMax(last: Option<int>, us: set<Update>) {
    && (last.None? <==> us == {})
    && (last.Some? ==> (exists u :: u in us && u.id == last.value) && forall u :: u in us ==> u.id <= last.value)
  }

  /** The rows and the offset are those of this set of updates under this link table. */
  ghost predicate Holds(s: Store, refs: map<nat, Ref>, us: set<Update>) {
    && s.state.Some? && s.refs == refs && RowsOk(s.rows)
    && (forall u :: Seen(s.rows, u) <==> u in us)
    && (forall i :: 0 <= i < |s.rows.observations| ==>
          s.rows.events[i].publication == Resolve(refs, s.rows.observations[i].update))
    && IsMax(s.state.value.lastUpdateId, us)
  }

  lemma MaxOfUnion(last: Option<int>, before: set<Update>, us: seq<Update>)
    requires IsMax(last, before)
    ensures IsMax(MaxId(last, us), before + set u | u in us)
  {
    MaxIdSpec(last, us);
    var all := before + set u | u in us;
    if us != [] {
      assert us[0] in all;
    }
    if MaxId(last, us) != last {
      var i :| 0 <= i < |us| && MaxId(last, us) == Some(us[i].id);
      assert us[i] in all;
    }
  }

  lemma PollKeepsHolds(s: Store, refs: map<nat, Ref>, us: set<Update>, e: Event)
    requires Holds(s, refs, us) && e.PollAt? && PollCommits(s, e.response)
    requires OneUpdatePerId(us + set u | u in Batch(e.response.value))
    ensures Holds(Step(s, e), refs, us + set u | u in Batch(e.response.value))
  {
    var batch := Batch(e.response.value);
    forall i, k | 0 <= i < |batch| && 0 <= k < |s.rows.observations| && batch[i].id == s.rows.observations[k].update.id
      ensures batch[i] == s.rows.observations[k].update
    {
      assert Seen(s.rows, s.rows.observations[k].update);
    }
    IngestAllSpec(s.rows, refs, batch, e.done);
    MaxOfUnion(s.state.value.lastUpdateId, us, batch);
  }

  lemma {:induction false} PollsHold(s: Store, es: seq<Event>)
    requires Holds(s, s.refs, {}) && AllPolls(es) && OneUpdatePerId(Fed(es))
    ensures Holds(Run(s, es), s.refs, Fed(es))
  {
    if |es| > 0 {
      var p, e := es[..|es| - 1], es[|es| - 1];
      PollsHold(s, p);
      if PollCommits(Run(s, p), e.response) {
        PollKeepsHolds(Run(s, p), s.refs, Fed(p), e);
      }
    }
  }

  ghost function AsStream(us: set<Update>): set<Emission> { set u | u in us :: Emission(u, u.id) }

  lemma HoldingIsKnown(s: Store, refs: map<nat, Ref>, us: set<Update>)
    requires Holds(s, refs, us)
    ensures Known(AsStream(us), refs, s.rows)
  {
    var r, stream := s.rows, AsStream(us);
    forall i | 0 <= i < |r.observations| && i < |r.events|
      ensures KnownRow(stream, refs, r, i)
    {
      assert Seen(r, r.observations[i].update);
      assert Emission(r.observations[i].update, r.observations[i].update.id) in stream;
    }
  }

  lemma SameIds(r: Rows, us: set<Update>)
    requires forall u :: Seen(r, u) <==> u in us
    ensures PositionIds(r, Below(|r.observations|)) == EmissionIds(AsStream(us))
  {
    var positions, stream := Below(|r.observations|), AsStream(us);
    forall i | i in positions
      ensures r.observations[i].update.id in EmissionIds(stream)
    {
      var u := r.observations[i].update;
      assert Seen(r, u);
      assert Emission(u, u.id) in stream;
    }
    forall e | e in stream
      ensures e.update.id in PositionIds(r, positions)
    {
      assert Seen(r, e.update);
      var i: nat :| i < |r.observations| && r.observations[i].update == e.update;
      assert i in positions;
    }
  }

  lemma OneRowEach(r: Rows, us: set<Update>)
    requires RowsOk(r) && OneUpdatePerId(us) && forall u :: Seen(r, u) <==> u in us
    ensures |r.observations| == |us|
  {
    SameIds(r, us);
    PositionsHaveOwnIds(r, Below(|r.observations|));
    EmissionsHaveOwnIds(AsStream(us));
    UpdatesAsStream(us);
  }

  lemma CountOfHolding(s: Store, refs: map<nat, Ref>, us: set<Update>, p: nat, start: int, end: int)
    requires Holds(s, refs, us) && OneUpdatePerId(us)
    ensures |EventIds(s.rows.events, p, start, end)| == |TrueReactions(AsStream(us), refs, p, start, end)|
    ensures |s.rows.observations| == |us|
  {
    HoldingIsKnown(s, refs, us);
    CountIsTrue(AsStream(us), s, p, start, end);
    OneRowEach(s.rows, us);
  }

  ghost function Below(n: nat): (s: set<nat>)
    ensures |s| == n && forall i: nat :: i in s <==> i < n
  {
    if n == 0 then {} else Below(n - 1) + {n - 1}
  }

  lemma {:induction false} UpdatesAsStream(us: set<Update>)
    ensures |AsStream(us)| == |us|
  {
    if us != {} {
      var u :| u in us;
      UpdatesAsStream(us - {u});
      assert AsStream(us) == AsStream(us - {u}) + {Emission(u, u.id)};
    }
  }

  ghost function View(r: Rows): set<(Update, Option<nat>)>
    requires RowsOk(r)
  {
    set i | 0 <= i < |r.observations| :: (r.observations[i].update, r.events[i].publication)
  }

  lemma ViewOfHolding(s: Store, refs: map<nat, Ref>, us: set<Update>)
    requires Holds(s, refs, us)
    ensures View(s.rows) == set u | u in us :: (u, Resolve(refs, u))
  {
    forall u | u in us
      ensures (u, Resolve(refs, u)) in View(s.rows)
    {
      assert Seen(s.rows, u);
    }
    forall x | x in View(s.rows)
      ensures x.0 in us && x == (x.0, Resolve(refs, x.0))
    {
      assert Seen(s.rows, x.0);
    }
  }

  /** However the same updates are split, ordered, repeated or interrupted by failing polls: the
      same observations with the same publications, one row per update, the same offset (the
      largest id seen) and the same counts. */
  lemma BatchingIndependence(s: Store, es: seq<Event>, fs: seq<Event>, p: nat, start: int, end: int)
    requires Holds(s, s.refs, {}) && AllPolls(es) && AllPolls(fs)
    requires Fed(es) == Fed(fs) && OneUpdatePerId(Fed(es))
    ensures
      var a, b := Run(s, es), Run(s, fs);
      && RowsOk(a.rows) && RowsOk(b.rows) && View(a.rows) == View(b.rows)
      && |a.rows.observations| == |b.rows.observations| == |Fed(es)|
      && a.state.Some? && b.state.Some? && a.state.value.lastUpdateId == b.state.value.lastUpdateId
      && IsMax(a.state.value.lastUpdateId, Fed(es))
      && |EventIds(a.rows.events, p, start, end)| == |EventIds(b.rows.events, p, start, end)|
  {
    PollsHold(s, es);
    PollsHold(s, fs);
    SameUpdatesSameRows(Run(s, es), Run(s, fs), s.refs, Fed(es), p, start, end);
  }

  lemma SameUpdatesSameRows(a: Store, b: Store, refs: map<nat, Ref>, us: set<Update>, p: nat, start: int, end: int)
    requires Holds(a, refs, us) && Holds(b, refs, us) && OneUpdatePerId(us)
    ensures View(a.rows) == View(b.rows) && |a.rows.observations| == |b.rows.observations| == |us|
    ensures a.state.value.lastUpdateId == b.state.value.lastUpdateId
    ensures |EventIds(a.rows.events, p, start, end)| == |EventIds(b.rows.events, p, start, end)|
  {
    CountOfHolding(a, refs, us, p, start, end);
    CountOfHolding(b, refs, us, p, start, end);
    ViewOfHolding(a, refs, us);
    ViewOfHolding(b, refs, us);
  }
}
