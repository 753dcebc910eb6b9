/**
 What lets a text out (execution/service.py): the preflight's answer spelled out, field by field, and the fact
 that everything ever sent had passed it.
 */
module Preflights {
  import opened Basics
  import opened Publishing
  import opened Provenance
  import opened Outcomes
  import opened OneOutcome
  import opened Overlap
  import JR = JobRuns
  import PW = ProductionWorkflow

  /** None of the three global switches is on. */
  predicate NothingPaused(s: Store) {
    s.controls.automationPaused == false && s.controls.executionPaused == false && s.controls.writesRevoked == false
  }

  /** The approval the execution was made for is of this very action and version. */
  predicate ApprovalMatches(s: Store, x: nat)
    requires x in s.executions && s.executions[x].action in s.actions
  {
    var e, a := s.executions[x], s.actions[s.executions[x].action];
    && e.approval in s.approvals
    && s.approvals[e.approval].action == e.action && s.approvals[e.approval].workflow == a.workflow
    && s.approvals[e.approval].version == a.version
  }

  /** The action's text is still the body of the final version of a READY workflow. */
  predicate TextIsCurrent(s: Store, a: Action) {
    && a.workflow in s.lines && s.lines[a.workflow].flow.status == PW.ReadyForActionProposal
    && s.lines[a.workflow].flow.finalVersion == Some(a.version) && 1 <= a.version <= |s.lines[a.workflow].flow.versions|
    && s.lines[a.workflow].flow.versions[a.version - 1].draft.body == a.text
  }

  predicate AccountStands(s: Store, a: Action) {
    a.account in s.accounts && s.accounts[a.account].ready && s.accounts[a.account].chat == a.chat
  }

  predicate NotStartedYet(s: Store, d: nat) {
    d in s.decisions && s.decisions[d].experiment.Some? ==> s.decisions[d].experiment.value.status == DRAFT
  }

  /** Nothing stands against sending. */
  predicate Unobstructed(s: Store, x: nat) {
    && x in s.executions && s.executions[x].action in s.actions
    && var a := s.actions[s.executions[x].action];
       && a.permitted && a.reviewsPass && NothingPaused(s) && ApprovalMatches(s, x) && TextIsCurrent(s, a)
       && AccountStands(s, a) && NotStartedYet(s, a.decision)
  }

  /** Nothing is decided yet, nothing stands against sending and nothing is published. */
  predicate ShouldSend(s: Store, x: nat) {
    && Unobstructed(s, x) && s.executions[x].status in {PENDING, FAILED, HALTED}
    && !exists i :: 0 <= i < |s.publications| && s.publications[i].execution == x
  }

  datatype BlockReason =
    | PermissionNotEligible | ControllerNotPassed | WritesRevoked | ExecutionPaused | AutomationPaused
    | MismatchedApproval | StaleVersion | ConnectorNotReady | TargetChanged | ExperimentNotDraft

  /** The reason is true of the store. */
  predicate Applies(r: BlockReason, s: Store, x: nat)
    requires x in s.executions && s.executions[x].action in s.actions
  {
    var a := s.actions[s.executions[x].action];
    match r
    case PermissionNotEligible => !a.permitted
    case ControllerNotPassed => !a.reviewsPass
    case WritesRevoked => s.controls.writesRevoked
    case ExecutionPaused => s.controls.executionPaused
    case AutomationPaused => s.controls.automationPaused
    case MismatchedApproval => !ApprovalMatches(s, x)
    case StaleVersion => !TextIsCurrent(s, a)
    case ConnectorNotReady => !(a.account in s.accounts && s.accounts[a.account].ready)
    case TargetChanged => a.account in s.accounts && s.accounts[a.account].chat != a.chat
    case ExperimentNotDraft => !NotStartedYet(s, a.decision)
  }

  /** The four plans of a preflight, and exactly when each is made. */
  lemma PlanIff(s: Store, x: nat)
    requires x in s.executions && s.executions[x].action in s.actions
    ensures
      var e, a, plan := s.executions[x], s.actions[s.executions[x].action], PlanFor(s, x);
      var done := e.status in {SUCCEEDED, UNKNOWN_EXTERNAL_OUTCOME};
      var published := exists i :: 0 <= i < |s.publications| && s.publications[i].execution == x;
      && (plan == Skip <==> done)
      && (plan == Halt <==> !done && !Unobstructed(s, x))
      && (plan == Confirm <==> !done && Unobstructed(s, x) && published)
      && (plan.Go? <==> !done && Unobstructed(s, x) && !published)
      && (plan.Go? ==> plan == Go(x, e.action, a.text, a.chat))
  {}

  // ------------------------------------------------------------ over runs

  /** Step k of the run was the preflight of this attempt, for execution x, and nothing stood against sending. */
  ghost predicate ClearedAt(es: seq<Event>, k: nat, t: JR.Ticket, x: nat) {
    && k < |es| && es[k] == PreflightOf(t) && Unobstructed(Run(INIT, es[..k]), x)
    && Run(INIT, es[..k]).executions[x].status in {PENDING, FAILED, HALTED}
  }

  ghost predicate Cleared(es: seq<Event>, t: JR.Ticket, x: nat) { exists k: nat :: ClearedAt(es, k, t, x) }

  lemma ClearedStays(es: seq<Event>, t: JR.Ticket, x: nat)
    requires |es| > 0 && Cleared(es[..|es| - 1], t, x)
    ensures Cleared(es, t, x)
  {
    var p := es[..|es| - 1];
    var k: nat :| ClearedAt(p, k, t, x);
    assert p[..k] == es[..k];
    assert ClearedAt(es, k, t, x);
  }

  lemma NewPlanIsClear(s: Store, t: JR.Ticket, u: JR.Ticket)
    requires u in Preflight(s, t).plans && u !in s.plans && Preflight(s, t).plans[u].Go?
    ensures u == t
    ensures
      var x := Preflight(s, t).plans[u].execution;
      Unobstructed(s, x) && s.executions[x].status in {PENDING, FAILED, HALTED}
  {
    PlanIff(s, s.w.jobs[t.job].key.execution);
  }

  lemma PlanIsClearNow(es: seq<Event>, t: JR.Ticket)
    requires |es| > 0 && es[|es| - 1].PreflightOf?
    requires t in Run(INIT, es).plans && t !in Run(INIT, es[..|es| - 1]).plans && Run(INIT, es).plans[t].Go?
    ensures Cleared(es, t, Run(INIT, es).plans[t].execution)
  {
    var p, e := es[..|es| - 1], es[|es| - 1];
    NewPlanIsClear(Run(INIT, p), e.ticket, t);
    assert ClearedAt(es, |es| - 1, t, Run(INIT, es).plans[t].execution);
  }

  lemma {:induction false} EveryPlanWasClear(es: seq<Event>, t: JR.Ticket)
    requires t in Run(INIT, es).plans && Run(INIT, es).plans[t].Go?
    ensures Cleared(es, t, Run(INIT, es).plans[t].execution)
  {
    var p, e := es[..|es| - 1], es[|es| - 1];
    var s := Run(INIT, p);
    if e.PreflightOf? && t !in s.plans {
      PlanIsClearNow(es, t);
    } else {
      OldPlanStays(s, e, t);
      EveryPlanWasClear(p, t);
      ClearedStays(es, t, s.plans[t].execution);
    }
  }

  lemma OldPlanStays(s: Store, e: Event, t: JR.Ticket)
    requires t in Step(s, e).plans && (e.PreflightOf? ==> t in s.plans)
    ensures t in s.plans && Step(s, e).plans[t] == s.plans[t]
  {
    if !e.PreflightOf? { PlansFrame(s, e); }
  }

  lemma SentFrame(s: Store, e: Event)
    requires !e.SendOf?
    ensures Step(s, e).sent == s.sent
  {
    if e.FinishOf? {
      assert Step(s, e) == Finish(s, e.ticket, e.outcome);
    } else if e.Runtime? {
      assert Step(s, e) == if Foreign(s, e.event) then WithWorld(s, e.event) else s;
    }
  }

  lemma SendOnlyPlanned(s: Store, t: JR.Ticket)
    ensures
      var v := Send(s, t);
      || v.sent == s.sent
      || (t in s.plans && s.plans[t].Go?
          && v.sent == s.sent + [Sent(t, s.plans[t].execution, s.plans[t].action, s.plans[t].text, s.plans[t].chat)])
  {}

  /** What is in the log after a step was there before, or is being sent now by its plan. */
  lemma OldOrPlanned(s: Store, e: Event, i: nat) returns (was: bool)
    requires i < |Step(s, e).sent|
    ensures was ==> i < |s.sent| && Step(s, e).sent[i] == s.sent[i]
    ensures !was ==>
      && e.SendOf? && e.ticket in s.plans && s.plans[e.ticket].Go? && Step(s, e).sent[i].ticket == e.ticket
      && Step(s, e).sent[i].execution == s.plans[e.ticket].execution
  {
    was := i < |s.sent|;
    if e.SendOf? { SendOnlyPlanned(s, e.ticket); } else { SentFrame(s, e); }
  }

  /** Everything ever sent, in any run, was sent by an attempt at whose preflight no switch was on, the action was
      permitted and reviewed, the approval matched, the text was current, the account stood and the experiment
      had not started. */
  lemma {:induction false} EverySendWasUnobstructed(es: seq<Event>, i: nat)
    requires i < |Run(INIT, es).sent|
    ensures Cleared(es, Run(INIT, es).sent[i].ticket, Run(INIT, es).sent[i].execution)
  {
    var p, e := es[..|es| - 1], es[|es| - 1];
    var s := Run(INIT, p);
    var was := OldOrPlanned(s, e, i);
    if was {
      EverySendWasUnobstructed(p, i);
    } else {
      EveryPlanWasClear(p, e.ticket);
    }
    ClearedStays(es, Run(INIT, es).sent[i].ticket, Run(INIT, es).sent[i].execution);
  }

  // ------------------------------------------------------------ nothing is published that was not sent

  /** The log has a text sent for this execution by this attempt. */
  predicate SentBy(s: Store, t: JR.Ticket, x: nat) {
    exists i :: 0 <= i < |s.sent| && s.sent[i].ticket == t && s.sent[i].execution == x
  }

  predicate WasSent(s: Store, x: nat) { exists i :: 0 <= i < |s.sent| && s.sent[i].execution == x }

  /** A publish attempt that has called the connector is in the log. */
  predicate CalledWasSent(s: Store, t: JR.Ticket) {
    t in s.w.live && s.w.live[t].phase == JR.Executing(true) && t.job in s.w.jobs && s.w.jobs[t.job].key.PublishKey? ==>
      SentBy(s, t, s.w.jobs[t.job].key.execution)
  }

  predicate Logged(s: Store) {
    && (forall t :: t in s.w.live ==> CalledWasSent(s, t))
    && (forall i :: 0 <= i < |s.publications| ==> WasSent(s, s.publications[i].execution))
  }

  /** The step calls for nobody: attempts that have called had called before, for the same jobs. */
  predicate CallsNobody(s: Store, v: Store) {
    forall t :: t in v.w.live && v.w.live[t].phase == JR.Executing(true) && t.job in v.w.jobs
                && v.w.jobs[t.job].key.PublishKey? ==>
      && t in s.w.live && s.w.live[t].phase == JR.Executing(true) && t.job in s.w.jobs
      && s.w.jobs[t.job].key == v.w.jobs[t.job].key
  }

  lemma QuietKeepsLogged(s: Store, v: Store)
    requires Logged(s) && v.sent == s.sent && CallsNobody(s, v)
    requires v.publications == s.publications
    ensures Logged(v)
  {
    forall t | t in v.w.live
      ensures CalledWasSent(v, t)
    {
      assert t in s.w.live ==> CalledWasSent(s, t);
    }
    forall i | 0 <= i < |v.publications|
      ensures WasSent(v, v.publications[i].execution)
    {
      assert WasSent(s, s.publications[i].execution);
    }
  }

  lemma JobsMoveQuietly(w: JR.World, e: JR.Event, t: JR.Ticket)
    requires JR.TicketsOk(w) && t in JR.Step(w, e).live && JR.Step(w, e).live[t].phase == JR.Executing(true)
    requires t.job in JR.Step(w, e).jobs && (e.Call? ==> e.ticket.job != t.job)
    ensures t in w.live && w.live[t].phase == JR.Executing(true) && t.job in w.jobs
    ensures w.jobs[t.job].key == JR.Step(w, e).jobs[t.job].key
  {
    if t in w.live { assert JR.TicketIssued(w, t); }
  }

  lemma RuntimeIsQuiet(s: Store, e: JR.Event)
    requires JR.TicketsOk(s.w) && Foreign(s, e)
    ensures CallsNobody(s, WithWorld(s, e))
  {
    var v := WithWorld(s, e);
    forall t | t in v.w.live && v.w.live[t].phase == JR.Executing(true) && t.job in v.w.jobs
               && v.w.jobs[t.job].key.PublishKey?
      ensures t in s.w.live && s.w.live[t].phase == JR.Executing(true) && t.job in s.w.jobs
      ensures s.w.jobs[t.job].key == v.w.jobs[t.job].key
    {
      JobsMoveQuietly(s.w, e, t);
    }
  }

  lemma SentStays(s: Store, v: Store, t: JR.Ticket, x: nat)
    requires s.sent <= v.sent
    ensures SentBy(s, t, x) ==> SentBy(v, t, x)
    ensures WasSent(s, x) ==> WasSent(v, x)
  {
    assert forall i :: 0 <= i < |s.sent| ==> v.sent[i] == s.sent[i];
  }

  lemma SendKeepsLogged(s: Store, t: JR.Ticket)
    requires Logged(s) && PlansOk(s)
    ensures Logged(Send(s, t))
  {
    var v := Send(s, t);
    if v != s {
      assert PlanOk(s, t);
      assert v.sent[|s.sent|].ticket == t && v.sent[|s.sent|].execution == s.w.jobs[t.job].key.execution;
      forall u | u in v.w.live
        ensures CalledWasSent(v, u)
      {
        if u != t {
          assert CalledWasSent(s, u);
          if u.job in s.w.jobs && s.w.jobs[u.job].key.PublishKey? { SentStays(s, v, u, s.w.jobs[u.job].key.execution); }
        }
      }
      forall i | 0 <= i < |v.publications|
        ensures WasSent(v, v.publications[i].execution)
      {
        assert WasSent(s, s.publications[i].execution);
        SentStays(s, v, t, s.publications[i].execution);
      }
    }
  }

  lemma RecordedPublishes(s: Store, x: nat, plan: Plan, o: Outcome)
    requires x in s.executions && s.executions[x].action in s.actions
    ensures
      var q := Publication(x, s.executions[x].action, s.actions[s.executions[x].action].decision);
      Recorded(s, x, plan, o).publications ==
        if plan.Go? && o.Published? then s.publications + [q] else s.publications
  {}

  /** A commit adds a publication only for a Go plan, whose attempt has called. */
  lemma FinishPublishes(s: Store, t: JR.Ticket, o: Outcome, i: nat)
    requires i < |Finish(s, t, o).publications|
    ensures
      || (i < |s.publications| && Finish(s, t, o).publications[i] == s.publications[i])
      || (&& t in s.w.live && s.w.live[t].phase == JR.Executing(true) && t.job in s.w.jobs
          && s.w.jobs[t.job].key.PublishKey?
          && Finish(s, t, o).publications[i].execution == s.w.jobs[t.job].key.execution)
  {
    if MayFinish(s, t, o) { RecordedPublishes(s, s.w.jobs[t.job].key.execution, s.plans[t], o); }
  }

  lemma FinishIsQuiet(s: Store, t: JR.Ticket, o: Outcome)
    requires JR.TicketsOk(s.w)
    ensures CallsNobody(s, Finish(s, t, o))
  {
    var v := Finish(s, t, o);
    if MayFinish(s, t, o) {
      assert v.w == JR.Step(s.w, JR.Commit(t));
      forall u | u in v.w.live && v.w.live[u].phase == JR.Executing(true) && u.job in v.w.jobs
        ensures u in s.w.live && s.w.live[u].phase == JR.Executing(true) && u.job in s.w.jobs
        ensures s.w.jobs[u.job].key == v.w.jobs[u.job].key
      {
        JobsMoveQuietly(s.w, JR.Commit(t), u);
      }
    }
  }

  lemma FinishKeepsLogged(s: Store, t: JR.Ticket, o: Outcome)
    requires Logged(s) && JR.TicketsOk(s.w)
    ensures Logged(Finish(s, t, o))
  {
    var v := Finish(s, t, o);
    FinishIsQuiet(s, t, o);
    QuietKeepsLogged(s, s.(w := v.w));
    forall u | u in v.w.live
      ensures CalledWasSent(v, u)
    {
      assert CalledWasSent(s.(w := v.w), u);
      if u.job in v.w.jobs && v.w.jobs[u.job].key.PublishKey? {
        SentStays(s.(w := v.w), v, u, v.w.jobs[u.job].key.execution);
      }
    }
    forall i | 0 <= i < |v.publications|
      ensures WasSent(v, v.publications[i].execution)
    {
      FinishPublishes(s, t, o, i);
      if i < |s.publications| { assert WasSent(s, s.publications[i].execution); }
      assert t in s.w.live ==> CalledWasSent(s, t);
      SentStays(s, v, t, v.publications[i].execution);
    }
  }

  lemma ApproveIsQuiet(s: Store, e: Event)
    requires e.ApproveAction? && JR.TicketsOk(s.w)
    ensures CallsNobody(s, Step(s, e))
  {
    var v := Step(s, e);
    forall t | t in v.w.live && v.w.live[t].phase == JR.Executing(true)
      ensures t in s.w.live && s.w.live[t].phase == JR.Executing(true) && t.job in s.w.jobs && t.job in v.w.jobs
      ensures s.w.jobs[t.job].key == v.w.jobs[t.job].key
    {
      assert t in s.w.live;
      assert JR.TicketIssued(s.w, t);
    }
  }

  lemma StepKeepsLogged(s: Store, e: Event)
    requires Logged(s) && PlansOk(s) && JR.TicketsOk(s.w)
    ensures Logged(Step(s, e))
  {
    if e.SendOf? {
      SendKeepsLogged(s, e.ticket);
    } else if e.FinishOf? {
      FinishKeepsLogged(s, e.ticket, e.outcome);
    } else {
      QuietStep(s, e);
      QuietKeepsLogged(s, Step(s, e));
    }
  }

  lemma QuietStep(s: Store, e: Event)
    requires !e.SendOf? && !e.FinishOf? && JR.TicketsOk(s.w)
    ensures Step(s, e).publications == s.publications && Step(s, e).sent == s.sent && CallsNobody(s, Step(s, e))
  {
    SentFrame(s, e);
    if Bystander(e) {
      BystanderFrame(s, e);
      SameWorldIsQuiet(s, Step(s, e));
    } else if e.NewDecision? || e.CommitMetric? {
      DecisionFrame(s, e);
      SameWorldIsQuiet(s, Step(s, e));
    } else if e.ProposeAction? {
      ProposeFrame(s, e);
      SameWorldIsQuiet(s, Step(s, e));
    } else if e.PreflightOf? {
      PreflightFrame(s, e);
      SameWorldIsQuiet(s, Step(s, e));
    } else if e.ApproveAction? {
      ApproveFrame(s, e);
      ApproveIsQuiet(s, e);
    } else {
      RuntimeFrame(s, e);
      if Foreign(s, e.event) { RuntimeIsQuiet(s, e.event); }
    }
  }

  lemma SameWorldIsQuiet(s: Store, v: Store)
    requires v.w == s.w && JR.TicketsOk(s.w)
    ensures CallsNobody(s, v)
  {}

  lemma {:induction false} EveryRunIsLogged(es: seq<Event>)
    ensures Logged(Run(INIT, es))
  {
    if |es| > 0 {
      EveryRunIsLogged(es[..|es| - 1]);
      EveryRunKeepsInv(es[..|es| - 1]);
      StepKeepsLogged(Run(INIT, es[..|es| - 1]), es[|es| - 1]);
    }
  }

  /** Whatever a run records as published was sent, to the chat and with the text of its action. */
  lemma EveryPublicationWasSent(es: seq<Event>, i: nat)
    requires i < |Run(INIT, es).publications|
    ensures
      var s := Run(INIT, es);
      var q := s.publications[i];
      && q.action in s.actions
      && exists k :: 0 <= k < |s.sent| && s.sent[k].execution == q.execution && s.sent[k].action == q.action
                     && s.sent[k].text == s.actions[q.action].text && s.sent[k].chat == s.actions[q.action].chat
  {
    EveryRunIsLogged(es);
    EveryRunKeepsInv(es);
    var s := Run(INIT, es);
    assert PublicationOk(s, i) && WasSent(s, s.publications[i].execution);
    var k: nat :| k < |s.sent| && s.sent[k].execution == s.publications[i].execution;
    assert SentOk(s, k);
  }

  // ------------------------------------------------------------ what the outcome writes

  /** The rows of an ambiguous, rejected or blocked attempt: the experiment and the log of publications stay. */
  lemma OutcomeRows(s: Store, x: nat, plan: Plan, o: Outcome)
    requires x in s.executions && s.executions[x].action in s.actions
    ensures
      var v, action := Recorded(s, x, plan, o), s.executions[x].action;
      && x in v.executions && action in v.actions
      && (plan == Halt ==>
            v.executions[x].status == HALTED && v.actions[action].status == BLOCKED && v.publications == s.publications)
      && (plan == Confirm ==>
            && v.executions[x].status == SUCCEEDED && v.actions[action].status == EXECUTED
            && v.publications == s.publications)
      && (plan.Go? && o == Ambiguous ==>
            && v.executions[x].status == UNKNOWN_EXTERNAL_OUTCOME && v.actions == s.actions
            && v.publications == s.publications && v.decisions == s.decisions)
      && (plan.Go? && o == Rejected ==>
            && v.executions[x].status == FAILED && v.actions[action].status == BLOCKED
            && v.publications == s.publications && v.decisions == s.decisions)
      && (plan == Skip ==> v == s)
      && forall y :: y in s.executions && y != x ==> y in v.executions && v.executions[y] == s.executions[y]
  {}

  /** The global switches are set by owners and by nobody else. */
  lemma SwitchesBelongToOwners(s: Store, e: Event)
    ensures Step(s, e).controls ==
      if e.SetControls? && e.user in s.owners then e.controls else s.controls
  {
    if e.FinishOf? {
      assert Step(s, e) == Finish(s, e.ticket, e.outcome);
    } else if e.Runtime? {
      assert Step(s, e) == if Foreign(s, e.event) then WithWorld(s, e.event) else s;
    }
  }
}
