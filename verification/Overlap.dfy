/**
 What it takes for one outcome per decision, and what happens without it: attempts of one decision
 that do not overlap meet the exact conditions of OneOutcome; attempts that do, break them.
 */
module Overlap {
  import opened Basics
  import opened Publishing
  import opened Provenance
  import opened Outcomes
  import opened OneOutcome
  import JR = JobRuns

  /** An interpretation of d has read and not yet committed. */
  predicate ReadsFor(s: Store, r: nat, d: nat) { r in s.pending && s.pending[r].decision == d }

  /** No two executions of d are between preflight and commit together.  Attempts of one execution may
      be: its external reference is unique. */
  ghost predicate PublishesApart(s: Store, d: nat) {
    forall t, u :: InFlight(s, t, d) && InFlight(s, u, d) ==> s.plans[t].execution == s.plans[u].execution
  }

  /** No two metric versions of d are between read and commit together. */
  ghost predicate ReadsApart(s: Store, d: nat) {
    forall r, q :: ReadsFor(s, r, d) && ReadsFor(s, q, d) ==> s.pending[r].metric == s.pending[q].metric
  }

  ghost predicate ApartRun(es: seq<Event>, d: nat) {
    && PublishesApart(Run(INIT, es), d) && ReadsApart(Run(INIT, es), d)
    && (|es| > 0 ==> ApartRun(es[..|es| - 1], d))
  }

  /** An attempt in flight still finds what its preflight found, or its own publication. */
  ghost predicate FlightsOk(s: Store, d: nat) {
    forall t :: InFlight(s, t, d) && Governed(s, d) ==> StatusOf(s, d).DRAFT? || HasPublication(s, s.plans[t].execution)
  }

  ghost predicate ReadsOk(s: Store, d: nat) {
    forall r :: ReadsFor(s, r, d) && Governed(s, d) ==> StatusOf(s, d).RUNNING? || Interpreted(s, s.pending[r].metric)
  }

  // ------------------------------------------------------------ plans and readings over a step

  lemma PlansFrame(s: Store, e: Event)
    requires !e.PreflightOf?
    ensures PlansShrink(s, Step(s, e))
  {
    if Bystander(e) {
      BystanderFrame(s, e);
    } else if e.NewDecision? || e.CommitMetric? {
      DecisionFrame(s, e);
    } else if e.ProposeAction? {
      ProposeFrame(s, e);
    } else if e.ApproveAction? {
      ApproveFrame(s, e);
    } else if e.SendOf? {
      SendFrame(s, e);
    } else if e.FinishOf? {
      FinishFrame(s, e);
    } else {
      RuntimeFrame(s, e);
    }
  }

  lemma FlightsStay(s: Store, v: Store, t: JR.Ticket, d: nat)
    requires PlansOk(s) && BindingsPersist(s, v) && PlansShrink(s, v) && InFlight(v, t, d)
    ensures InFlight(s, t, d)
  {
    assert PlanOk(s, t);
  }

  lemma GoMeansDraft(s: Store, x: nat)
    requires x in s.executions && s.executions[x].action in s.actions && PlanFor(s, x).Go?
    ensures PlanFor(s, x).action == s.executions[x].action
    ensures ExperimentDraft(s, s.actions[s.executions[x].action].decision)
  {}

  lemma PreflightFindsDraft(s: Store, t: JR.Ticket, u: JR.Ticket, d: nat)
    requires InFlight(Preflight(s, t), u, d) && Governed(s, d)
    ensures (InFlight(s, u, d) && Preflight(s, t).plans[u] == s.plans[u]) || StatusOf(s, d).DRAFT?
  {
    if u !in s.plans {
      GoMeansDraft(s, s.w.jobs[t.job].key.execution);
    }
  }

  lemma OtherFlightStays(s: Store, e: Event, t: JR.Ticket, d: nat)
    requires LinesOk(s) && PlansOk(s) && !e.PreflightOf? && InFlight(Step(s, e), t, d)
    ensures InFlight(s, t, d) && Step(s, e).plans[t] == s.plans[t]
  {
    StepPersists(s, e);
    PlansFrame(s, e);
    FlightsStay(s, Step(s, e), t, d);
  }

  /** An attempt in flight after a step was so before, or has just found DRAFT. */
  lemma FlightOrigin(s: Store, e: Event, t: JR.Ticket, d: nat)
    requires LinesOk(s) && PlansOk(s) && InFlight(Step(s, e), t, d) && Governed(s, d)
    ensures (InFlight(s, t, d) && Step(s, e).plans[t] == s.plans[t]) || (e.PreflightOf? && StatusOf(s, d).DRAFT?)
  {
    if e.PreflightOf? {
      PreflightFindsDraft(s, e.ticket, t, d);
    } else {
      OtherFlightStays(s, e, t, d);
    }
  }

  lemma PublicationsStay(s: Store, v: Store, x: nat)
    requires s.publications <= v.publications && HasPublication(s, x)
    ensures HasPublication(v, x)
  {
    var i :| 0 <= i < |s.publications| && s.publications[i].execution == x;
    assert v.publications[i].execution == x;
  }

  lemma PublishedNow(s: Store, e: Event, d: nat)
    requires PlansOk(s) && PublishesFor(s, e, d)
    ensures HasPublication(Step(s, e), s.plans[e.ticket].execution)
  {
    WhatPublishingDoes(s, e.ticket);
    assert Step(s, e).publications[|s.publications|].execution == s.plans[e.ticket].execution;
  }

  lemma StepKeepsFlight(s: Store, e: Event, t: JR.Ticket, d: nat)
    requires LinesOk(s) && PlansOk(s) && OutcomesOk(s) && DraftMeansUnpublished(s)
    requires FlightsOk(s, d) && PublishesApart(s, d)
    requires InFlight(Step(s, e), t, d) && Governed(s, d)
    ensures Governed(Step(s, e), d)
    ensures StatusOf(Step(s, e), d).DRAFT? || HasPublication(Step(s, e), Step(s, e).plans[t].execution)
  {
    StepEffect(s, e, d);
    FlightOrigin(s, e, t, d);
    if InFlight(s, t, d) && Step(s, e).plans[t] == s.plans[t] {
      if HasPublication(s, s.plans[t].execution) {
        StepPersists(s, e);
        PublicationsStay(s, Step(s, e), s.plans[t].execution);
      } else if PublishesFor(s, e, d) {
        PublishedNow(s, e, d);
      } else if DecidesFor(s, e, d) {
        DecidedIsPublished(s, e, d);
      }
    }
  }

  lemma StepKeepsFlights(s: Store, e: Event, d: nat)
    requires Inv(s) && DraftMeansUnpublished(s) && FlightsOk(s, d) && PublishesApart(s, d)
    ensures FlightsOk(Step(s, e), d)
  {
    forall t | InFlight(Step(s, e), t, d) && Governed(Step(s, e), d)
      ensures StatusOf(Step(s, e), d).DRAFT? || HasPublication(Step(s, e), Step(s, e).plans[t].execution)
    {
      if Governed(s, d) {
        StepKeepsFlight(s, e, t, d);
      } else {
        NewlyGoverned(s, e, d);
      }
    }
  }

  lemma ReadFindsRunning(s: Store, reader: nat, metric: nat, r: nat, d: nat)
    requires ReadsFor(ReadCheckpoint(s, reader, metric), r, d) && Governed(s, d)
    ensures ReadsFor(s, r, d) || StatusOf(s, d).RUNNING?
    ensures ReadsFor(s, r, d) ==> ReadCheckpoint(s, reader, metric).pending[r] == s.pending[r]
  {}

  lemma EndOfReading(s: Store, reader: nat)
    ensures CommitResult(s, reader).pending == s.pending - {reader} == DropReading(s, reader).pending
  {}

  lemma ReadOrigin(s: Store, e: Event, r: nat, d: nat)
    requires ReadsFor(Step(s, e), r, d) && Governed(s, d)
    ensures (ReadsFor(s, r, d) && Step(s, e).pending[r] == s.pending[r]) || (e.ReadMetric? && StatusOf(s, d).RUNNING?)
  {
    if e.ReadMetric? {
      ReadFindsRunning(s, e.reader, e.metric, r, d);
    } else if e.CommitMetric? || e.DropMetric? {
      EndOfReading(s, e.reader);
    } else {
      PendingFrame(s, e);
    }
  }

  lemma InterpretedStays(s: Store, v: Store, metric: nat)
    requires s.results <= v.results && Interpreted(s, metric)
    ensures Interpreted(v, metric)
  {
    var i :| 0 <= i < |s.results| && s.results[i].metric == metric;
    assert v.results[i].metric == metric;
  }

  lemma InterpretedNow(s: Store, reader: nat)
    requires MayCommitResult(s, reader)
    ensures Interpreted(CommitResult(s, reader), s.pending[reader].metric)
  {
    assert CommitResult(s, reader).results[|s.results|].metric == s.pending[reader].metric;
  }

  lemma StepKeepsRead(s: Store, e: Event, r: nat, d: nat)
    requires LinesOk(s) && PlansOk(s) && ReadsOk(s, d) && ReadsApart(s, d)
    requires ReadsFor(Step(s, e), r, d) && Governed(s, d)
    ensures Governed(Step(s, e), d)
    ensures StatusOf(Step(s, e), d).RUNNING? || Interpreted(Step(s, e), Step(s, e).pending[r].metric)
  {
    StepEffect(s, e, d);
    ReadOrigin(s, e, r, d);
    if ReadsFor(s, r, d) && Step(s, e).pending[r] == s.pending[r] {
      if Interpreted(s, s.pending[r].metric) {
        StepPersists(s, e);
        InterpretedStays(s, Step(s, e), s.pending[r].metric);
      } else if DecidesFor(s, e, d) {
        InterpretedNow(s, e.reader);
      }
    }
  }

  lemma StepKeepsReads(s: Store, e: Event, d: nat)
    requires Inv(s) && ReadsOk(s, d) && ReadsApart(s, d)
    ensures ReadsOk(Step(s, e), d)
  {
    forall r | ReadsFor(Step(s, e), r, d) && Governed(Step(s, e), d)
      ensures StatusOf(Step(s, e), d).RUNNING? || Interpreted(Step(s, e), Step(s, e).pending[r].metric)
    {
      if Governed(s, d) {
        StepKeepsRead(s, e, r, d);
      } else {
        NewlyGoverned(s, e, d);
        NoReadingYet(s, e, r, d);
      }
    }
  }

  lemma NoReadingYet(s: Store, e: Event, r: nat, d: nat)
    requires Inv(s) && e.NewDecision? && d !in s.decisions
    ensures !ReadsFor(Step(s, e), r, d)
  {
    PendingFrame(s, e);
    if r in s.pending {
      assert ResultFits(s, s.pending[r]) && MetricOk(s, s.pending[r].metric);
    }
  }

  // ------------------------------------------------------------ apart

  lemma {:induction false} ApartMeetsConditions(es: seq<Event>, d: nat)
    requires ApartRun(es, d)
    ensures FlightsOk(Run(INIT, es), d) && ReadsOk(Run(INIT, es), d)
    ensures PublishesFromDraft(es, d) && DecidesFirst(es, d)
  {
    if |es| > 0 {
      var p, e := es[..|es| - 1], es[|es| - 1];
      var s := Run(INIT, p);
      ApartMeetsConditions(p, d);
      EveryRunKeepsInv(p);
      DraftIffUnpublished(p);
      StepKeepsFlights(s, e, d);
      StepKeepsReads(s, e, d);
      if Governed(s, d) {
        OnePublicationIff(p, d);
        if Reopened(p, d) { ReopenedIsPublishedTwice(p, d); }
      }
    }
  }

  /** One outcome per governed decision: when neither two executions nor two metric versions of d are
      ever worked on together, d gets at most one publication, one result and one learning, and its
      experiment never goes back.  Other decisions may overlap, and leases of d may be taken over. */
  lemma OneOutcomePerDecision(es: seq<Event>, d: nat)
    requires ApartRun(es, d) && Governed(Run(INIT, es), d)
    ensures
      var s := Run(INIT, es);
      && PublicationCount(s.publications, d) <= 1 && ResultCount(s.results, d) <= 1
      && LearningCount(s.learnings, d) <= 1 && NeverFalls(es, d)
  {
    ApartMeetsConditions(es, d);
    OnePublicationIff(es, d);
    OneResultIff(es, d);
    EveryRunKeepsInv(es);
    LearnedAtMostAsDecided(Run(INIT, es), d);
    NeverFallsIff(es, d);
    if Reopened(es, d) { ReopenedIsPublishedTwice(es, d); }
  }

  // ------------------------------------------------------------ overlapping

  lemma OthersKeepTheirAttempt(w: JR.World, t: JR.Ticket, u: JR.Ticket)
    requires t != u && u in w.live && u.job in w.jobs
    ensures
      var v := JR.Step(w, JR.Commit(t));
      u in v.live && v.live[u] == w.live[u] && u.job in v.jobs && v.jobs[u.job].key == w.jobs[u.job].key
  {}

  lemma OtherPlanSurvives(s: Store, t: JR.Ticket, u: JR.Ticket)
    requires t != u && u in s.plans && u in s.w.live && s.w.live[u].phase.Executing? && u.job in s.w.jobs
    ensures
      var v := WithWorld(s, JR.Commit(t));
      && u in v.plans && v.plans[u] == s.plans[u] && u in v.w.live && v.w.live[u] == s.w.live[u]
      && u.job in v.w.jobs && v.w.jobs[u.job].key == s.w.jobs[u.job].key
  {
    OthersKeepTheirAttempt(s.w, t, u);
  }

  lemma OtherPlanSurvivesFinish(s: Store, t: JR.Ticket, u: JR.Ticket)
    requires t != u && Publishes(s, t, Published) && u in s.plans && Executing(s, u)
    ensures
      var v := Finish(s, t, Published);
      && u in v.plans && v.plans[u] == s.plans[u] && u in v.w.live && v.w.live[u] == s.w.live[u]
      && u.job in v.w.jobs && v.w.jobs[u.job].key == s.w.jobs[u.job].key
  {
    OtherPlanSurvives(RecordPublication(s, s.w.jobs[t.job].key.execution), t, u);
  }

  lemma PublicationOfAnother(s: Store, v: Store, u: JR.Ticket, q: Publication)
    requires Publishes(s, u, Published) && BindingsPersist(s, v) && q.execution != s.plans[u].execution
    requires v.publications == s.publications + [q] && u in v.plans && v.plans[u] == s.plans[u]
    requires u in v.w.live && v.w.live[u] == s.w.live[u]
    ensures Publishes(v, u, Published)
  {}

  /** A commit for one execution does not stop an attempt in flight for another. */
  lemma OtherStillPublishes(s: Store, t: JR.Ticket, u: JR.Ticket)
    requires PlansOk(s) && t != u && Publishes(s, t, Published) && Publishes(s, u, Published)
    requires s.plans[t].execution != s.plans[u].execution
    ensures Publishes(Finish(s, t, Published), u, Published)
  {
    var v := Finish(s, t, Published);
    assert PlanOk(s, t);
    WhatPublishingDoes(s, t);
    OtherPlanSurvivesFinish(s, t, u);
    FinishPersists(s, t, Published);
    PublicationOfAnother(s, v, u, v.publications[|s.publications|]);
  }

  lemma FlightOfFinish(s: Store, t: JR.Ticket, d: nat)
    requires PlansOk(s) && InFlight(s, t, d)
    ensures
      var x := s.plans[t].execution;
      x in s.executions && s.executions[x].action in s.actions && s.actions[s.executions[x].action].decision == d
  {
    assert PlanOk(s, t);
  }

  /** With two executions of one decision in flight, both sent, both commits go through and the decision
      gets two publications. */
  lemma OverlapPublishesTwice(s: Store, t: JR.Ticket, u: JR.Ticket, d: nat)
    requires PlansOk(s) && PlansOk(Finish(s, t, Published)) && t != u && InFlight(s, t, d) && InFlight(s, u, d)
    requires Publishes(s, t, Published) && Publishes(s, u, Published) && s.plans[t].execution != s.plans[u].execution
    ensures
      var v := Finish(Finish(s, t, Published), u, Published);
      PublicationCount(v.publications, d) == PublicationCount(s.publications, d) + 2
  {
    var m := Finish(s, t, Published);
    OtherStillPublishes(s, t, u);
    WhatPublishingDoes(s, t);
    WhatPublishingDoes(m, u);
    OtherPlanSurvivesFinish(s, t, u);
    FinishPersists(s, t, Published);
    FlightOfFinish(s, t, d);
    FlightOfFinish(s, u, d);
    PublicationSnoc(s.publications, m.publications[|s.publications|], d);
    PublicationSnoc(m.publications, Finish(m, u, Published).publications[|m.publications|], d);
  }

  /** With two metric versions of one decision read, both commits go through and the decision gets two
      results. */
  lemma OverlapDecidesTwice(s: Store, r: nat, q: nat, d: nat)
    requires r != q && ReadsFor(s, r, d) && ReadsFor(s, q, d) && s.pending[r].metric != s.pending[q].metric
    requires MayCommitResult(s, r) && MayCommitResult(s, q)
    ensures
      var v := CommitResult(CommitResult(s, r), q);
      && v.results == s.results + [s.pending[r]] + [s.pending[q]]
      && ResultCount(v.results, d) == ResultCount(s.results, d) + 2
  {
    var m := CommitResult(s, r);
    ResultSnoc(s.results, s.pending[r], d);
    ResultSnoc(m.results, s.pending[q], d);
    forall i | 0 <= i < |m.results|
      ensures m.results[i].metric != s.pending[q].metric
    {
    }
    assert MayCommitResult(m, q);
  }
}
