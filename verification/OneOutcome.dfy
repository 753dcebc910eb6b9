/**
 One outcome per governed decision.  The code does not promise it: it holds exactly when every
 publication is committed while the experiment is DRAFT and every result while it is not COMPLETE
 and never was set back.  Both conditions follow when attempts of one decision do not overlap.
 */
module OneOutcome {
  import opened Basics
  import opened Publishing
  import opened Provenance
  import opened Outcomes
  import JR = JobRuns

  predicate Governed(s: Store, d: nat) { d in s.decisions && s.decisions[d].experiment.Some? }

  function StatusOf(s: Store, d: nat): ExperimentStatus
    requires Governed(s, d)
  {
    s.decisions[d].experiment.value.status
  }

  function PublicationCount(rows: seq<Publication>, d: nat): nat {
    if |rows| == 0 then 0
    else PublicationCount(rows[..|rows| - 1], d) + if rows[|rows| - 1].decision == d then 1 else 0
  }

  function ResultCount(rows: seq<ExperimentResult>, d: nat): nat {
    if |rows| == 0 then 0 else ResultCount(rows[..|rows| - 1], d) + if rows[|rows| - 1].decision == d then 1 else 0
  }

  function LearningCount(rows: seq<Learning>, d: nat): nat {
    if |rows| == 0 then 0 else LearningCount(rows[..|rows| - 1], d) + if rows[|rows| - 1].decision == d then 1 else 0
  }

  lemma PublicationSnoc(rows: seq<Publication>, q: Publication, d: nat)
    ensures PublicationCount(rows + [q], d) == PublicationCount(rows, d) + if q.decision == d then 1 else 0
  {
    assert (rows + [q])[..|rows|] == rows;
  }

  lemma ResultSnoc(rows: seq<ExperimentResult>, r: ExperimentResult, d: nat)
    ensures ResultCount(rows + [r], d) == ResultCount(rows, d) + if r.decision == d then 1 else 0
  {
    assert (rows + [r])[..|rows|] == rows;
  }

  // ------------------------------------------------------------ the two commits

  /** The attempt is about to commit a publication. */
  predicate Publishes(s: Store, t: JR.Ticket, o: Outcome) {
    MayFinish(s, t, o) && s.plans[t].Go? && o.Published?
  }

  /** An attempt has passed its preflight for decision d and not yet committed. */
  predicate InFlight(s: Store, t: JR.Ticket, d: nat) {
    t in s.plans && s.plans[t].Go? && s.plans[t].action in s.actions && s.actions[s.plans[t].action].decision == d
  }

  /** This step commits a publication of d. */
  predicate PublishesFor(s: Store, e: Event, d: nat) {
    e.FinishOf? && Publishes(s, e.ticket, e.outcome) && InFlight(s, e.ticket, d)
  }

  /** This step commits a result of d. */
  predicate DecidesFor(s: Store, e: Event, d: nat) {
    e.CommitMetric? && MayCommitResult(s, e.reader) && s.pending[e.reader].decision == d
  }

  lemma OtherFinishes(s: Store, t: JR.Ticket, o: Outcome)
    requires !Publishes(s, t, o)
    ensures SameOutcomes(s, Finish(s, t, o))
  {
    if MayFinish(s, t, o) {
      var x := s.w.jobs[t.job].key.execution;
      OtherRecords(s, x, s.plans[t], o);
      WithWorldFrame(Recorded(s, x, s.plans[t], o), JR.Commit(t));
    }
  }

  lemma OtherRecords(s: Store, x: nat, plan: Plan, o: Outcome)
    requires x in s.executions && s.executions[x].action in s.actions && !(plan.Go? && o.Published?)
    ensures SameOutcomes(s, Recorded(s, x, plan, o))
  {}

  lemma RecordPublicationDoes(s: Store, x: nat)
    requires x in s.executions && s.executions[x].action in s.actions
    ensures
      var v, action := RecordPublication(s, x), s.executions[x].action;
      var d := s.actions[action].decision;
      && v.publications == s.publications + [Publication(x, action, d)]
      && v.decisions == SetExperiment(s.decisions, d, RUNNING) && v.results == s.results
  {}

  lemma FinishedPlanIsGone(s: Store, t: JR.Ticket)
    requires t in s.w.live && s.w.live[t].phase.Executing? && t.job in s.w.jobs
    ensures t !in WithWorld(s, JR.Commit(t)).plans
  {
    JR.CommitEndsAttempt(s.w, t);
  }

  lemma PlanIsInFlight(s: Store, t: JR.Ticket)
    requires PlansOk(s) && t in s.plans && s.plans[t].Go?
    ensures
      var x := s.w.jobs[t.job].key.execution;
      && x in s.executions && s.executions[x].action in s.actions && x == s.plans[t].execution
      && InFlight(s, t, s.actions[s.executions[x].action].decision)
  {
    assert PlanOk(s, t);
  }

  lemma WhatPublishingDoes(s: Store, t: JR.Ticket)
    requires PlansOk(s) && Publishes(s, t, Published)
    ensures
      var v, x := Finish(s, t, Published), s.plans[t].execution;
      && x in s.executions && s.executions[x].action in s.actions
      && var action := s.executions[x].action;
         var d := s.actions[action].decision;
         && InFlight(s, t, d) && v.results == s.results && t !in v.plans
         && v.publications == s.publications + [Publication(x, action, d)]
         && v.decisions == SetExperiment(s.decisions, d, RUNNING)
  {
    var x := s.w.jobs[t.job].key.execution;
    PlanIsInFlight(s, t);
    var u := RecordPublication(s, x);
    RecordPublicationDoes(s, x);
    WithWorldFrame(u, JR.Commit(t));
    FinishedPlanIsGone(u, t);
    assert Finish(s, t, Published) == WithWorld(u, JR.Commit(t));
  }

  lemma FinishShrinksPlans(s: Store, t: JR.Ticket, o: Outcome)
    ensures PlansShrink(s, Finish(s, t, o))
  {
    if MayFinish(s, t, o) {
      WithWorldFrame(Recorded(s, s.w.jobs[t.job].key.execution, s.plans[t], o), JR.Commit(t));
    }
  }

  predicate PlansShrink(s: Store, v: Store) {
    forall t :: t in v.plans ==> t in s.plans && v.plans[t] == s.plans[t]
  }

  // ------------------------------------------------------------ what one step does to d

  /** What a step does to the status and the counts of d. */
  predicate Effect(s: Store, v: Store, d: nat, publishes: bool, decides: bool)
    requires Governed(s, d)
  {
    && Governed(v, d)
    && StatusOf(v, d) == (if publishes then RUNNING else if decides then COMPLETE else StatusOf(s, d))
    && PublicationCount(v.publications, d) == PublicationCount(s.publications, d) + (if publishes then 1 else 0)
    && ResultCount(v.results, d) == ResultCount(s.results, d) + (if decides then 1 else 0)
  }

  lemma FinishEffect(s: Store, t: JR.Ticket, o: Outcome, d: nat)
    requires PlansOk(s) && Governed(s, d)
    ensures Effect(s, Finish(s, t, o), d, Publishes(s, t, o) && InFlight(s, t, d), false)
  {
    if Publishes(s, t, o) {
      WhatPublishingDoes(s, t);
      PublicationSnoc(s.publications, Finish(s, t, o).publications[|s.publications|], d);
    } else {
      OtherFinishes(s, t, o);
    }
  }

  lemma CommitEffect(s: Store, reader: nat, d: nat)
    requires Governed(s, d)
    ensures Effect(s, CommitResult(s, reader), d, false, MayCommitResult(s, reader) && s.pending[reader].decision == d)
  {
    if MayCommitResult(s, reader) {
      ResultSnoc(s.results, s.pending[reader], d);
    }
  }

  lemma AddDecisionEffect(s: Store, c: nat, experiment: Option<bool>, d: nat)
    requires Governed(s, d)
    ensures Effect(s, AddDecision(s, c, experiment), d, false, false)
  {}

  predicate Uninvolved(e: Event) {
    Bystander(e) || e.ProposeAction? || e.ApproveAction? || e.PreflightOf? || e.SendOf? || e.Runtime?
  }

  lemma UninvolvedFrame(s: Store, e: Event)
    requires Uninvolved(e)
    ensures SameOutcomes(s, Step(s, e))
  {
    if Bystander(e) {
      BystanderFrame(s, e);
    } else if e.ProposeAction? {
      ProposeFrame(s, e);
    } else if e.ApproveAction? {
      ApproveFrame(s, e);
    } else if e.PreflightOf? {
      PreflightFrame(s, e);
    } else if e.SendOf? {
      SendFrame(s, e);
    } else {
      RuntimeFrame(s, e);
    }
  }

  /** Every step: the counts of d grow exactly with its two commits, which also set its status. */
  lemma StepEffect(s: Store, e: Event, d: nat)
    requires PlansOk(s) && Governed(s, d)
    ensures Effect(s, Step(s, e), d, PublishesFor(s, e, d), DecidesFor(s, e, d))
  {
    if Uninvolved(e) {
      UninvolvedFrame(s, e);
    } else if e.NewDecision? {
      AddDecisionEffect(s, e.decision, e.experiment, d);
    } else if e.FinishOf? {
      FinishEffect(s, e.ticket, e.outcome, d);
    } else {
      CommitEffect(s, e.reader, d);
    }
  }

  // ------------------------------------------------------------ publications, exactly

  /** In DRAFT exactly while nothing is published. */
  ghost predicate DraftMeansUnpublished(s: Store) {
    forall d :: Governed(s, d) ==> (StatusOf(s, d).DRAFT? <==> PublicationCount(s.publications, d) == 0)
  }

  lemma {:induction false} PublishedIsCounted(rows: seq<Publication>, i: nat)
    requires i < |rows|
    ensures PublicationCount(rows, rows[i].decision) >= 1
  {
    if i < |rows| - 1 {
      assert rows[..|rows| - 1][i] == rows[i];
      PublishedIsCounted(rows[..|rows| - 1], i);
    }
  }

  lemma {:induction false} UnknownIsUncounted(rows: seq<Publication>, results: seq<ExperimentResult>, d: nat)
    requires forall i :: 0 <= i < |rows| ==> rows[i].decision != d
    requires forall i :: 0 <= i < |results| ==> results[i].decision != d
    ensures PublicationCount(rows, d) == 0 && ResultCount(results, d) == 0
    decreases |rows| + |results|
  {
    if |rows| > 0 {
      UnknownIsUncounted(rows[..|rows| - 1], results, d);
    } else if |results| > 0 {
      UnknownIsUncounted(rows, results[..|results| - 1], d);
    }
  }

  /** Nothing is published or decided for a decision that is not there yet. */
  lemma NewDecisionIsUncounted(s: Store, d: nat)
    requires Inv(s) && d !in s.decisions
    ensures PublicationCount(s.publications, d) == 0 && ResultCount(s.results, d) == 0
  {
    forall i | 0 <= i < |s.publications|
      ensures s.publications[i].decision != d
    {
      assert PublicationOk(s, i);
      assert ActionOk(s, s.publications[i].action);
    }
    forall i | 0 <= i < |s.results|
      ensures s.results[i].decision != d
    {
      assert ResultOk(s, i);
      assert MetricOk(s, s.results[i].metric);
    }
    UnknownIsUncounted(s.publications, s.results, d);
  }

  /** A result can only be committed for a published decision. */
  lemma DecidedIsPublished(s: Store, e: Event, d: nat)
    requires OutcomesOk(s) && DecidesFor(s, e, d)
    ensures PublicationCount(s.publications, d) >= 1
  {
    var r := s.pending[e.reader];
    assert ResultFits(s, r) && MetricOk(s, r.metric);
    PublishedIsCounted(s.publications, s.metrics[r.metric].publication);
  }

  /** Only a new decision is governed after a step without having been before. */
  lemma NewlyGoverned(s: Store, e: Event, d: nat)
    requires Inv(s) && Governed(Step(s, e), d) && !Governed(s, d)
    ensures d !in s.decisions && e.NewDecision? && StatusOf(Step(s, e), d).DRAFT?
    ensures Step(s, e).publications == s.publications && Step(s, e).results == s.results
  {
    StepPersists(s, e);
    if Uninvolved(e) {
      UninvolvedFrame(s, e);
    } else if e.FinishOf? {
      FinishKeepsAbsence(s, e.ticket, e.outcome, d);
    } else if e.NewDecision? {
      DecisionFrame(s, e);
    }
  }

  lemma FinishKeepsAbsence(s: Store, t: JR.Ticket, o: Outcome, d: nat)
    requires PlansOk(s) && !Governed(s, d)
    ensures !Governed(Finish(s, t, o), d)
  {
    if Publishes(s, t, o) {
      WhatPublishingDoes(s, t);
    } else {
      OtherFinishes(s, t, o);
    }
  }

  lemma StepKeepsDraft(s: Store, e: Event, d: nat)
    requires Inv(s) && DraftMeansUnpublished(s) && Governed(Step(s, e), d)
    ensures StatusOf(Step(s, e), d).DRAFT? <==> PublicationCount(Step(s, e).publications, d) == 0
  {
    if Governed(s, d) {
      StepEffect(s, e, d);
      if DecidesFor(s, e, d) { DecidedIsPublished(s, e, d); }
    } else {
      NewlyGoverned(s, e, d);
      NewDecisionIsUncounted(s, d);
    }
  }

  /** In every run, with no hypothesis: an experiment is in DRAFT exactly while nothing of its
      decision is published. */
  lemma {:induction false} DraftIffUnpublished(es: seq<Event>)
    ensures DraftMeansUnpublished(Run(INIT, es))
  {
    if |es| > 0 {
      var p := Run(INIT, es[..|es| - 1]);
      DraftIffUnpublished(es[..|es| - 1]);
      EveryRunKeepsInv(es[..|es| - 1]);
      forall d | Governed(Run(INIT, es), d)
        ensures StatusOf(Run(INIT, es), d).DRAFT? <==> PublicationCount(Run(INIT, es).publications, d) == 0
      {
        StepKeepsDraft(p, es[|es| - 1], d);
      }
    }
  }

  /** Exactly when a commit gives d a second publication: its experiment is no longer DRAFT. */
  lemma SecondPublicationIff(es: seq<Event>, e: Event, d: nat)
    requires Governed(Run(INIT, es), d) && PublishesFor(Run(INIT, es), e, d)
    ensures
      var s := Run(INIT, es);
      && PublicationCount(Step(s, e).publications, d) == PublicationCount(s.publications, d) + 1
      && (PublicationCount(Step(s, e).publications, d) >= 2 <==> !StatusOf(s, d).DRAFT?)
  {
    EveryRunKeepsInv(es);
    DraftIffUnpublished(es);
    StepEffect(Run(INIT, es), e, d);
  }

  /** Every publication of d in the run was committed while its experiment was DRAFT. */
  ghost predicate PublishesFromDraft(es: seq<Event>, d: nat) {
    |es| > 0 ==>
      var s := Run(INIT, es[..|es| - 1]);
      && PublishesFromDraft(es[..|es| - 1], d)
      && (Governed(s, d) && PublishesFor(s, es[|es| - 1], d) ==> StatusOf(s, d).DRAFT?)
  }

  lemma {:induction false} UngovernedIsUncounted(es: seq<Event>, d: nat)
    requires Governed(Run(INIT, es), d) && |es| > 0 && !Governed(Run(INIT, es[..|es| - 1]), d)
    ensures
      var s := Run(INIT, es);
      StatusOf(s, d).DRAFT? && PublicationCount(s.publications, d) == 0 && ResultCount(s.results, d) == 0
  {
    var p := Run(INIT, es[..|es| - 1]);
    EveryRunKeepsInv(es[..|es| - 1]);
    NewlyGoverned(p, es[|es| - 1], d);
    NewDecisionIsUncounted(p, d);
  }

  lemma {:induction false} NeverGovernedBefore(es: seq<Event>, d: nat)
    requires !Governed(Run(INIT, es), d)
    ensures PublishesFromDraft(es, d)
  {
    if |es| > 0 {
      EveryRunKeepsInv(es[..|es| - 1]);
      StepPersists(Run(INIT, es[..|es| - 1]), es[|es| - 1]);
      NeverGovernedBefore(es[..|es| - 1], d);
    }
  }

  /** One publication per decision, exactly. */
  lemma {:induction false} OnePublicationIff(es: seq<Event>, d: nat)
    requires Governed(Run(INIT, es), d)
    ensures PublicationCount(Run(INIT, es).publications, d) <= 1 <==> PublishesFromDraft(es, d)
  {
    if |es| > 0 {
      var p, e := es[..|es| - 1], es[|es| - 1];
      if Governed(Run(INIT, p), d) {
        OnePublicationIff(p, d);
        EveryRunKeepsInv(p);
        DraftIffUnpublished(p);
        StepEffect(Run(INIT, p), e, d);
      } else {
        UngovernedIsUncounted(es, d);
        NeverGovernedBefore(p, d);
      }
    }
  }

  // ------------------------------------------------------------ results, exactly

  /** This step sets a completed experiment back to RUNNING. */
  predicate Reopens(s: Store, e: Event, d: nat) {
    Governed(s, d) && StatusOf(s, d).COMPLETE? && PublishesFor(s, e, d)
  }

  ghost predicate Reopened(es: seq<Event>, d: nat) {
    |es| > 0 && (Reopened(es[..|es| - 1], d) || Reopens(Run(INIT, es[..|es| - 1]), es[|es| - 1], d))
  }

  lemma {:induction false} ReopenedWasGoverned(es: seq<Event>, d: nat)
    requires Reopened(es, d)
    ensures Governed(Run(INIT, es), d)
  {
    var p := es[..|es| - 1];
    if Reopened(p, d) { ReopenedWasGoverned(p, d); }
    EveryRunKeepsInv(p);
    StepEffect(Run(INIT, p), es[|es| - 1], d);
  }

  /** In every run: no result of d exactly while its experiment is not COMPLETE and never was set back. */
  lemma {:induction false} UndecidedIff(es: seq<Event>, d: nat)
    requires Governed(Run(INIT, es), d)
    ensures ResultCount(Run(INIT, es).results, d) == 0 <==>
      !StatusOf(Run(INIT, es), d).COMPLETE? && !Reopened(es, d)
  {
    if |es| > 0 {
      var p := es[..|es| - 1];
      if Governed(Run(INIT, p), d) {
        UndecidedIff(p, d);
        EveryRunKeepsInv(p);
        StepEffect(Run(INIT, p), es[|es| - 1], d);
      } else {
        UngovernedIsUncounted(es, d);
        if Reopened(p, d) { ReopenedWasGoverned(p, d); }
      }
    }
  }

  /** A set-back experiment has been published twice. */
  lemma {:induction false} ReopenedIsPublishedTwice(es: seq<Event>, d: nat)
    requires Reopened(es, d)
    ensures PublicationCount(Run(INIT, es).publications, d) >= 2
  {
    var p := es[..|es| - 1];
    EveryRunKeepsInv(p);
    DraftIffUnpublished(p);
    if Reopened(p, d) {
      ReopenedIsPublishedTwice(p, d);
      ReopenedWasGoverned(p, d);
    }
    StepEffect(Run(INIT, p), es[|es| - 1], d);
  }

  /** Exactly when a commit gives d a second result: its experiment is COMPLETE, or was and a
      publication set it back; with one publication, exactly when it is no longer RUNNING. */
  lemma SecondResultIff(es: seq<Event>, e: Event, d: nat)
    requires Governed(Run(INIT, es), d) && DecidesFor(Run(INIT, es), e, d)
    ensures
      var s := Run(INIT, es);
      && ResultCount(Step(s, e).results, d) == ResultCount(s.results, d) + 1
      && (ResultCount(Step(s, e).results, d) >= 2 <==> StatusOf(s, d).COMPLETE? || Reopened(es, d))
      && (PublicationCount(s.publications, d) <= 1 ==>
            (ResultCount(Step(s, e).results, d) >= 2 <==> !StatusOf(s, d).RUNNING?))
  {
    var s := Run(INIT, es);
    EveryRunKeepsInv(es);
    DraftIffUnpublished(es);
    UndecidedIff(es, d);
    StepEffect(s, e, d);
    DecidedIsPublished(s, e, d);
    if Reopened(es, d) { ReopenedIsPublishedTwice(es, d); }
  }

  /** Every result of d in the run was committed before its experiment ever was COMPLETE. */
  ghost predicate DecidesFirst(es: seq<Event>, d: nat) {
    |es| > 0 ==>
      var p := es[..|es| - 1];
      && DecidesFirst(p, d)
      && (Governed(Run(INIT, p), d) && DecidesFor(Run(INIT, p), es[|es| - 1], d) ==>
            !StatusOf(Run(INIT, p), d).COMPLETE? && !Reopened(p, d))
  }

  lemma {:induction false} NotDecidedBefore(es: seq<Event>, d: nat)
    requires !Governed(Run(INIT, es), d)
    ensures DecidesFirst(es, d)
  {
    if |es| > 0 {
      EveryRunKeepsInv(es[..|es| - 1]);
      StepPersists(Run(INIT, es[..|es| - 1]), es[|es| - 1]);
      NotDecidedBefore(es[..|es| - 1], d);
    }
  }

  /** One result per decision, exactly. */
  lemma {:induction false} OneResultIff(es: seq<Event>, d: nat)
    requires Governed(Run(INIT, es), d)
    ensures ResultCount(Run(INIT, es).results, d) <= 1 <==> DecidesFirst(es, d)
  {
    if |es| > 0 {
      var p := es[..|es| - 1];
      if Governed(Run(INIT, p), d) {
        OneResultIff(p, d);
        UndecidedIff(p, d);
        EveryRunKeepsInv(p);
        StepEffect(Run(INIT, p), es[|es| - 1], d);
      } else {
        UngovernedIsUncounted(es, d);
        NotDecidedBefore(p, d);
      }
    }
  }

  // ------------------------------------------------------------ learnings

  function LearnedFrom(rows: seq<Learning>, d: nat): set<nat> {
    set i | 0 <= i < |rows| && rows[i].decision == d :: rows[i].result
  }

  lemma LearnedFromSnoc(rows: seq<Learning>, last: Learning, d: nat)
    ensures LearnedFrom(rows + [last], d) == LearnedFrom(rows, d) + if last.decision == d then {last.result} else {}
  {
    var all := rows + [last];
    forall i | 0 <= i < |rows| && rows[i].decision == d
      ensures rows[i].result in LearnedFrom(all, d)
    {
      assert all[i] == rows[i];
    }
    assert last.decision == d ==> all[|rows|].result in LearnedFrom(all, d);
  }

  predicate DistinctResults(rows: seq<Learning>) {
    forall i, k :: 0 <= i < k < |rows| ==> rows[i].result != rows[k].result
  }

  lemma {:induction false} LearningsHaveOwnResults(rows: seq<Learning>, d: nat)
    requires DistinctResults(rows)
    ensures |LearnedFrom(rows, d)| == LearningCount(rows, d)
  {
    if |rows| > 0 {
      var front, last := rows[..|rows| - 1], rows[|rows| - 1];
      assert rows == front + [last];
      LearningsHaveOwnResults(front, d);
      LearnedFromSnoc(front, last, d);
      assert last.result !in LearnedFrom(front, d);
    }
  }

  function ResultsOf(rows: seq<ExperimentResult>, d: nat): set<nat> {
    set i: nat | i < |rows| && rows[i].decision == d
  }

  lemma {:induction false} ResultsAreCounted(rows: seq<ExperimentResult>, d: nat)
    ensures |ResultsOf(rows, d)| == ResultCount(rows, d)
  {
    if |rows| > 0 {
      var n := |rows| - 1;
      ResultsAreCounted(rows[..n], d);
      assert ResultsOf(rows, d) == ResultsOf(rows[..n], d) + if rows[n].decision == d then {n} else {};
    }
  }

  lemma {:induction false} SmallerSet(a: set<nat>, b: set<nat>)
    requires a <= b
    ensures |a| <= |b|
  {
    if a != {} {
      var x :| x in a;
      SmallerSet(a - {x}, b - {x});
    }
  }

  /** Never more learnings than results. */
  lemma LearnedAtMostAsDecided(s: Store, d: nat)
    requires OutcomesOk(s) && NoDuplicates(s)
    ensures LearningCount(s.learnings, d) <= ResultCount(s.results, d)
  {
    LearningsHaveOwnResults(s.learnings, d);
    ResultsAreCounted(s.results, d);
    forall x | x in LearnedFrom(s.learnings, d)
      ensures x in ResultsOf(s.results, d)
    {
      var i :| 0 <= i < |s.learnings| && s.learnings[i].decision == d && s.learnings[i].result == x;
      assert LearningOk(s, i);
    }
    SmallerSet(LearnedFrom(s.learnings, d), ResultsOf(s.results, d));
  }

  // ------------------------------------------------------------ the status over a run

  function Rank(a: ExperimentStatus): nat { match a case DRAFT => 0 case RUNNING => 1 case COMPLETE => 2 }

  lemma StepForwardIff(s: Store, e: Event, d: nat)
    requires PlansOk(s) && OutcomesOk(s) && DraftMeansUnpublished(s) && Governed(s, d)
    ensures Governed(Step(s, e), d)
    ensures Rank(StatusOf(s, d)) <= Rank(StatusOf(Step(s, e), d)) <==> !Reopens(s, e, d)
    ensures Rank(StatusOf(Step(s, e), d)) <= Rank(StatusOf(s, d)) + 1
  {
    StepEffect(s, e, d);
    if DecidesFor(s, e, d) { DecidedIsPublished(s, e, d); }
  }

  /** Between any two positions of a run the experiment only moves DRAFT, RUNNING, COMPLETE, unless a
      publication was committed after it was COMPLETE. */
  lemma {:induction false} StatusMovesForward(es: seq<Event>, i: nat, d: nat)
    requires i <= |es| && Governed(Run(INIT, es[..i]), d)
    ensures Governed(Run(INIT, es), d)
    ensures !Reopened(es, d) ==> Rank(StatusOf(Run(INIT, es[..i]), d)) <= Rank(StatusOf(Run(INIT, es), d))
  {
    if i == |es| {
      assert es[..i] == es;
    } else {
      var p := es[..|es| - 1];
      assert p[..i] == es[..i];
      StatusMovesForward(p, i, d);
      EveryRunKeepsInv(p);
      DraftIffUnpublished(p);
      StepForwardIff(Run(INIT, p), es[|es| - 1], d);
    }
  }

  ghost predicate NeverFalls(es: seq<Event>, d: nat) {
    |es| > 0 ==>
      var s := Run(INIT, es[..|es| - 1]);
      && NeverFalls(es[..|es| - 1], d)
      && (Governed(s, d) && Governed(Run(INIT, es), d) ==> Rank(StatusOf(s, d)) <= Rank(StatusOf(Run(INIT, es), d)))
  }

  /** The status never falls in a run if and only if no publication sets it back. */
  lemma {:induction false} NeverFallsIff(es: seq<Event>, d: nat)
    ensures NeverFalls(es, d) <==> !Reopened(es, d)
  {
    if |es| > 0 {
      var p := es[..|es| - 1];
      NeverFallsIff(p, d);
      EveryRunKeepsInv(p);
      DraftIffUnpublished(p);
      if Governed(Run(INIT, p), d) {
        StepForwardIff(Run(INIT, p), es[|es| - 1], d);
      }
    }
  }
}
