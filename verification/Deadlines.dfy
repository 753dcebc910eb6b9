/**
 How far the assumptions of NoLostReactions can be stretched (analytics/phase6.py): for a single first
 poll, the exact deadlines for the count to be right whatever the provider does; and what a reaction
 that arrives before its link costs.
 */
module Deadlines {
  import opened Basics
  import opened Checkpoints
  import opened Observation
  import opened Reactions
  import Sorting

  const BOTH: set<Kind> := {Reaction, ReactionCount}

  /** Configure and publish at the same time, then one poll. */
  function OnePoll(published: int, contract: Spec, q: Poll, raws: seq<Raw>): seq<Event> {
    [Configure(published, true, true, BOTH), Publish(1, published, 5, None, Some(contract)),
     PollAt(q.start, q.fetch, q.done, Some(raws))]
  }

  function BeforePoll(published: int, contract: Spec): Store {
    INIT.(state := Some(FeedState(published, None, None, false)), allowed := BOTH,
          publications := map[1 := Publication(published, Some(contract))], refs := map[5 := Ref(None, 1)])
  }

  function AfterOnePoll(published: int, contract: Spec, q: Poll, raws: seq<Raw>): Store {
    Run(INIT, OnePoll(published, contract, q, raws))
  }

  lemma OnePollRun(published: int, contract: Spec, q: Poll, raws: seq<Raw>)
    ensures
      var es := OnePoll(published, contract, q, raws);
      Run(INIT, es[..2]) == BeforePoll(published, contract)
        && Run(INIT, es) == Step(BeforePoll(published, contract), es[2])
  {
    var es := OnePoll(published, contract, q, raws);
    assert es[..2][..1] == es[..1] && es[..1][..0] == [];
    assert Run(INIT, es[..1]) == Step(INIT, es[0]);
    assert Run(INIT, es[..2]) == Step(Step(INIT, es[0]), es[1]);
  }

  /** The end of the window and of the grace period after it. */
  function WindowEnd(published: int, contract: Spec): int { published + contract.windowSeconds * SECOND }

  function GraceEnd(published: int, contract: Spec): int {
    WindowEnd(published, contract) + contract.graceSeconds * SECOND
  }

  /** The metric right after the poll is available and what it should be. */
  ghost predicate Exact(stream: set<Emission>, published: int, contract: Spec, q: Poll, raws: seq<Raw>) {
    var s := AfterOnePoll(published, contract, q, raws);
    Measured(s, 1) && Available(s, 1, q.done) && MetricIsTrue(stream, s, 1, q.done)
  }

  /** What a provider with this delay may answer to a poll that takes at most d. */
  ghost predicate Behaviour(stream: set<Emission>, delay: int, d: int, published: int, contract: Spec, q: Poll,
                            raws: seq<Raw>) {
    && Ordered(stream) && Prompt(stream, delay) && AllProper(raws)
    && HonestPoll(stream, d, BeforePoll(published, contract), PollAt(q.start, q.fetch, q.done, Some(raws)))
    && GraceEnd(published, contract) <= q.done
  }

  lemma OnePollIsAvailable(published: int, contract: Spec, q: Poll, raws: seq<Raw>)
    requires AllProper(raws) && GraceEnd(published, contract) <= q.done
    ensures
      var s := AfterOnePoll(published, contract, q, raws);
      var m := DerivationOf(s, 1, q.done);
      && m.Some? && m.value.availability.AVAILABLE? && m.value.contract == contract && s.polls == [q]
      && m.value.windowStart == published && m.value.windowEnd == WindowEnd(published, contract)
      && s.refs == map[5 := Ref(None, 1)]
  {
    OnePollRun(published, contract, q, raws);
  }

  lemma OnePollIsCovered(stream: set<Emission>, delay: int, d: int, published: int, contract: Spec, q: Poll,
                         raws: seq<Raw>)
    requires Behaviour(stream, delay, d, published, contract, q, raws)
    ensures
      var s := AfterOnePoll(published, contract, q, raws);
      Covered(stream, d, s.refs, s)
  {
    var before := BeforePoll(published, contract);
    OnePollRun(published, contract, q, raws);
    OnePollIsAvailable(published, contract, q, raws);
    assert Covered(stream, d, before.refs, before);
    StepKeepsCovered(stream, d, before.refs, before, PollAt(q.start, q.fetch, q.done, Some(raws)));
  }

  /** In time for the retention and with room in the grace period, the count is right. */
  lemma InTimeIsExact(stream: set<Emission>, delay: int, d: int, published: int, contract: Spec, q: Poll,
                      raws: seq<Raw>)
    requires Behaviour(stream, delay, d, published, contract, q, raws)
    requires q.fetch - published <= RETENTION && delay + d <= contract.graceSeconds * SECOND
    ensures Exact(stream, published, contract, q, raws)
  {
    OnePollIsAvailable(published, contract, q, raws);
    OnePollIsCovered(stream, delay, d, published, contract, q, raws);
    CoveredMetricIsTrue(stream, delay, d, AfterOnePoll(published, contract, q, raws), 1, q.done);
  }

  /** A reaction to the published message. */
  function ReactionAt(date: int, at: int): Emission { Emission(Update(1, Reaction, date, Some(5), None), at) }

  lemma EmptyPollCountsNothing(published: int, contract: Spec, q: Poll)
    requires GraceEnd(published, contract) <= q.done
    ensures
      var s := AfterOnePoll(published, contract, q, []);
      EventIds(s.rows.events, 1, published, WindowEnd(published, contract)) == []
  {
    OnePollRun(published, contract, q, []);
    SortKeepsProper([]);
    assert Batch([]) == [];
    assert AfterOnePoll(published, contract, q, []).rows == NO_ROWS;
  }

  /** A poll that comes back empty although a reaction happened in the window is wrong. */
  lemma EmptyPollMisses(published: int, contract: Spec, q: Poll, e: Emission)
    requires Accepted(contract) && GraceEnd(published, contract) <= q.done
    requires e == ReactionAt(e.update.date, e.at) && published <= e.update.date <= WindowEnd(published, contract)
    ensures !Exact({e}, published, contract, q, [])
  {
    var s := AfterOnePoll(published, contract, q, []);
    OnePollIsAvailable(published, contract, q, []);
    EmptyPollCountsNothing(published, contract, q);
    EveryRunKeepsInv(OnePoll(published, contract, q, []));
    assert TrueReactions({e}, s.refs, 1, published, WindowEnd(published, contract)) == {e};
    WrongCountIsUntrue({e}, s, 1, q.done);
  }

  // ------------------------------------------------------------ the first poll

  /** A first poll has no gap check to protect it: the AVAILABLE count is right for every provider
      behaviour exactly when that poll comes within the retention time of the publication. */
  lemma FirstPollDeadline(published: int, contract: Spec, fetch: int)
    requires Accepted(contract) && GraceEnd(published, contract) <= fetch
    ensures
      (forall stream, raws :: Behaviour(stream, 0, 0, published, contract, Poll(fetch, fetch, fetch), raws) ==>
         Exact(stream, published, contract, Poll(fetch, fetch, fetch), raws))
      <==> fetch - published <= 24 * 3600 * 1_000_000
  {
    var q := Poll(fetch, fetch, fetch);
    if fetch - published <= RETENTION {
      forall stream, raws | Behaviour(stream, 0, 0, published, contract, q, raws)
        ensures Exact(stream, published, contract, q, raws)
      {
        InTimeIsExact(stream, 0, 0, published, contract, q, raws);
      }
    } else {
      var missed := ReactionAt(published, published);
      EmptyPollMisses(published, contract, q, missed);
      assert Behaviour({missed}, 0, 0, published, contract, q, []);
    }
  }

  // ------------------------------------------------------------ the grace period

  /** The latest fetch within the retention time that still misses a reaction of the last moment. */
  function BlindFetch(published: int, contract: Spec, delay: int): int {
    var emitted := WindowEnd(published, contract) + delay;
    if emitted - 1 <= published + RETENTION then emitted - 1 else published + RETENTION
  }

  /** ingest time is read after the fetch, so the time a poll takes counts against the grace period:
      timely first polls of duration up to d count right for every provider with this delay exactly when
      both fit into the grace period together (or no such poll can be AVAILABLE at all). */
  lemma GraceDeadline(published: int, contract: Spec, delay: int, d: int)
    requires Accepted(contract) && delay >= 0 && d >= 0
    ensures
      (forall stream, q, raws ::
         (Behaviour(stream, delay, d, published, contract, q, raws) && q.fetch - published <= RETENTION) ==>
         Exact(stream, published, contract, q, raws))
      <==> delay + d <= contract.graceSeconds * SECOND || published + RETENTION + d < GraceEnd(published, contract)
  {
    if delay + d <= contract.graceSeconds * SECOND || published + RETENTION + d < GraceEnd(published, contract) {
      forall stream, q, raws | Behaviour(stream, delay, d, published, contract, q, raws)
        && q.fetch - published <= RETENTION
        ensures Exact(stream, published, contract, q, raws)
      {
        InTimeIsExact(stream, delay, d, published, contract, q, raws);
      }
    } else {
      var fetch, end := BlindFetch(published, contract, delay), WindowEnd(published, contract);
      var q, missed := Poll(fetch, fetch, fetch + d), ReactionAt(end, end + delay);
      EmptyPollMisses(published, contract, q, missed);
      assert Behaviour({missed}, delay, d, published, contract, q, []);
      assert q.fetch - published <= RETENTION;
    }
  }

  // ------------------------------------------------------------ the link

  lemma {:induction false} IngestAllKeepsEvents(r: Rows, refs: map<nat, Ref>, us: seq<Update>, at: int)
    requires RowsOk(r)
    ensures r.events <= IngestAll(r, refs, us, at).events
  {
    if |us| > 0 {
      var u, front := us[|us| - 1], us[..|us| - 1];
      IngestAllKeepsEvents(r, refs, front, at);
      IngestAllKeepsRows(r, refs, front, at);
      var m := IngestAll(r, refs, front, at);
      FindObservationFinds(m.observations, u.id);
      if FindObservation(m.observations, u.id).Some? {
        NormalizeIsIdempotent(m, refs, FindObservation(m.observations, u.id).value);
      } else {
        IngestNew(m, refs, u, at);
      }
    }
  }

  lemma StepKeepsEvents(s: Store, e: Event)
    requires RowsOk(s.rows)
    ensures s.rows.events <= Step(s, e).rows.events
  {
    if e.PollAt? && PollCommits(s, e.response) {
      IngestAllKeepsEvents(s.rows, s.refs, Batch(e.response.value), e.done);
    } else {
      StepKeepsRows(s, e);
    }
  }

  /** The publication found at ingestion is never looked up again. */
  lemma {:induction false} LinkIsFixedAtIngest(s: Store, es: seq<Event>)
    requires RowsOk(s.rows)
    ensures RowsOk(Run(s, es).rows) && s.rows.events <= Run(s, es).rows.events
  {
    if |es| > 0 {
      var p := Run(s, es[..|es| - 1]);
      LinkIsFixedAtIngest(s, es[..|es| - 1]);
      StepKeepsEvents(p, es[|es| - 1]);
      StepKeepsRows(p, es[|es| - 1]);
    }
  }

  /** The reaction is polled before the reference of its message commits; a second poll ends the window. */
  function LateLink(published: int, contract: Spec): seq<Event> {
    var e, g := ReactionAt(published, published), GraceEnd(published, contract);
    [Configure(published, true, true, BOTH), PollAt(published, published, published, Some([Proper(e.update)])),
     Publish(1, published, 5, None, Some(contract)), PollAt(g, g, g, Some([]))]
  }

  function FirstRows(published: int): Rows {
    Rows([Observed(ReactionAt(published, published).update, published)], [BusinessEvent(Reaction, published, 0, None)],
         [Evidence(0, published)], [Link(0, 0, 0, None)])
  }

  function Unlinked(published: int): Store {
    INIT.(state := Some(FeedState(published, Some(1), Some(published), false)), allowed := BOTH,
          rows := FirstRows(published), polls := [Poll(published, published, published)])
  }

  lemma FirstIngest(published: int)
    ensures
      var u := ReactionAt(published, published).update;
      Batch([Proper(u)]) == [u] && IngestAll(NO_ROWS, map[], [u], published) == FirstRows(published)
  {
    var u := ReactionAt(published, published).update;
    SortKeepsProper([Proper(u)]);
    assert [Proper(u)][..0] == [] && [u][..0] == [];
    assert Sorting.Sort([Proper(u)], ById) == [Proper(u)];
    assert IngestAll(NO_ROWS, map[], [u][..0], published) == NO_ROWS;
  }

  lemma UnlinkedRun(published: int, contract: Spec)
    ensures Run(INIT, LateLink(published, contract)[..1]) ==
      INIT.(state := Some(FeedState(published, None, None, false)), allowed := BOTH)
    ensures Run(INIT, LateLink(published, contract)[..2]) == Unlinked(published)
  {
    var es, u := LateLink(published, contract), ReactionAt(published, published).update;
    assert es[..2][..1] == es[..1] && es[..1][..0] == [];
    FirstIngest(published);
    assert [u][..0] == [];
    assert MaxId(None, [u]) == Some(1);
  }

  lemma LateLinkRun(published: int, contract: Spec)
    requires GraceEnd(published, contract) - published <= GAP
    ensures
      var es, g := LateLink(published, contract), GraceEnd(published, contract);
      var linked := Unlinked(published).(refs := map[5 := Ref(None, 1)],
                                         publications := map[1 := Publication(published, Some(contract))]);
      && Run(INIT, es[..3]) == linked
      && Run(INIT, es) == linked.(state := Some(FeedState(published, Some(1), Some(g), false)),
                                  polls := [Poll(published, published, published), Poll(g, g, g)])
  {
    var es := LateLink(published, contract);
    UnlinkedRun(published, contract);
    assert es[..3][..2] == es[..2] && es[..4] == es && es[..3] == es[..|es| - 1];
    SortKeepsProper([]);
    assert Batch([]) == [];
  }

  /** Both polls of the late link are honest ones. */
  ghost predicate HonestPolls(stream: set<Emission>, es: seq<Event>)
    requires |es| == 4 && es[1].PollAt? && es[3].PollAt?
  {
    && PollCommits(Run(INIT, es[..1]), es[1].response) && HonestPoll(stream, 0, Run(INIT, es[..1]), es[1])
    && PollCommits(Run(INIT, es[..3]), es[3].response) && HonestPoll(stream, 0, Run(INIT, es[..3]), es[3])
  }

  lemma LateLinkIsHonest(published: int, contract: Spec)
    requires Accepted(contract) && GraceEnd(published, contract) - published <= GAP
    ensures HonestPolls({ReactionAt(published, published)}, LateLink(published, contract))
  {
    UnlinkedRun(published, contract);
    LateLinkRun(published, contract);
    var es, e := LateLink(published, contract), ReactionAt(published, published);
    assert Emitted({e}, e.update, published);
  }

  lemma LateLinkIsWrong(published: int, contract: Spec)
    requires Accepted(contract) && GraceEnd(published, contract) - published <= GAP
    ensures
      var s, g := Run(INIT, LateLink(published, contract)), GraceEnd(published, contract);
      && Measured(s, 1) && Available(s, 1, g)
      && !MetricIsTrue({ReactionAt(published, published)}, s, 1, g)
  {
    var es, e := LateLink(published, contract), ReactionAt(published, published);
    var s, g, end := Run(INIT, es), GraceEnd(published, contract), WindowEnd(published, contract);
    LateLinkRun(published, contract);
    NothingCounted(published, end);
    EveryRunKeepsInv(es);
    assert TrueReactions({e}, s.refs, 1, published, end) == {e};
    WrongCountIsUntrue({e}, s, 1, g);
  }

  /** Why the reference has to be there at ingestion: with everything else as NoLostReactions asks for, a
      reaction polled before its reference commits is missing from the AVAILABLE count for ever. */
  lemma LateLinkMisses(published: int, contract: Spec)
    requires Accepted(contract) && GraceEnd(published, contract) - published <= GAP
    ensures
      var es, stream := LateLink(published, contract), {ReactionAt(published, published)};
      var s, g := Run(INIT, es), GraceEnd(published, contract);
      && Ordered(stream) && Prompt(stream, 0) && HonestPolls(stream, es)
      && s.polls != [] && s.polls[0].fetch - published <= RETENTION
      && Measured(s, 1) && Available(s, 1, g)
      && !MetricIsTrue(stream, s, 1, g)
  {
    LateLinkIsHonest(published, contract);
    LateLinkIsWrong(published, contract);
    LateLinkRun(published, contract);
  }

  lemma NothingCounted(published: int, end: int)
    ensures EventIds(FirstRows(published).events, 1, published, end) == []
  {
    var events := FirstRows(published).events;
    assert Matching(events, 0, 1, published, end) == [];
    assert Matching(events, 1, 1, published, end) == [];
  }
}
