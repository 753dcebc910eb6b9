/**
 The operations of execution/service.py, application/phase6.py and analytics/phase6.py in
 place: one object holds the tables, each method is one transaction run alone, and each is
 proved to take the step of Publishing that the run theorems are about.
 */
module ExecutionService {
  import opened Basics
  import opened Jobs
  import opened Publishing
  import opened Provenance
  import opened Preflights
  import JR = JobRuns
  import C = Checkpoints

  datatype Controller = Security | Privacy | Platform | Execution_ | Cost

  datatype Review = Review(controller: Controller, pass: bool)

  predicate AllPass(reviews: seq<Review>) { forall i :: 0 <= i < |reviews| ==> reviews[i].pass }

  /** The five deterministic execution controllers, in their order. */
  method EvaluateControllers(s: Store, wf: nat, version: nat, account: Account, rightsOk: bool)
      returns (reviews: seq<Review>)
    requires IsFinal(s, wf, version)
    ensures |reviews| == 5 && (AllPass(reviews) <==> ReviewsPass(s, wf, version, account, rightsOk))
    ensures forall i :: 0 <= i < 5 ==> reviews[i].controller == [Security, Privacy, Platform, Execution_, Cost][i]
    ensures reviews[0].pass && reviews[1].pass == rightsOk && reviews[4].pass
    ensures reviews[2].pass <==> 1 <= |Body(s, wf, version)| <= 4096 && account.ready && account.canPost
  {
    var text := Body(s, wf, version);
    var platform := 1 <= |text| <= 4096 && account.ready && account.canPost;
    var d := s.lines[wf].decision;
    var binding := true;
    if d in s.decisions && s.decisions[d].experiment.Some? {
      var experiment := s.decisions[d].experiment.value;
      if !experiment.status.DRAFT? {
        binding := false;
      } else if d !in s.checkpoints {
        binding := false;
      } else if !experiment.metricOk {
        binding := false;
      }
    }
    reviews := [Review(Security, true), Review(Privacy, rightsOk), Review(Platform, platform),
                Review(Execution_, binding), Review(Cost, true)];
    assert reviews[1].pass == rightsOk && reviews[2].pass == platform && reviews[3].pass == binding;
  }

  /** reviews_pass as the loop it is. */
  method ReviewsAllPass(reviews: seq<Review>) returns (pass: bool)
    ensures pass <==> AllPass(reviews)
  {
    pass := true;
    for i := 0 to |reviews|
      invariant pass <==> AllPass(reviews[..i])
    {
      assert reviews[..i + 1] == reviews[..i] + [reviews[i]];
      pass := pass && reviews[i].pass;
    }
    assert reviews[..|reviews|] == reviews;
  }

  /** An interpretation that nobody disturbs commits what it read. */
  lemma InterpretAlone(s: Store, metric: nat)
    requires s.pending == map[]
    ensures
      var v := CommitResult(ReadCheckpoint(s, 0, metric), 0);
      if MayInterpret(s, metric) then
        v == s.(results := s.results + [ResultFor(s, metric)],
                decisions := SetExperiment(s.decisions, s.metrics[metric].decision, COMPLETE))
      else v == s
  {
    var u := ReadCheckpoint(s, 0, metric);
    assert u.pending - {0} == map[];
    if MayInterpret(s, metric) {
      assert MayCommitResult(u, 0);
    }
  }

  /** An action has one approval and one execution to find. */
  lemma OnlyChoice(s: Store, action: nat, p: nat, x: nat, approval: nat, execution: nat)
    requires OnePerAction(s) && p !in s.approvals && x !in s.executions
    requires (approval in s.approvals && s.approvals[approval].action == action)
             || (approval == p && forall q :: q in s.approvals ==> s.approvals[q].action != action)
    requires (execution in s.executions && s.executions[execution].action == action)
             || (execution == x && forall y :: y in s.executions ==> s.executions[y].action != action)
    ensures approval == ApprovalOf(s, action, p) && execution == ExecutionOf(s, action, x)
  {}

  class Service {
    var w: JR.World
    var decisions: map<nat, Decision>
    var checkpoints: map<nat, C.Spec>
    var lines: map<nat, Line>
    var accounts: map<nat, Account>
    var controls: Controls
    var owners: set<nat>
    var actions: map<nat, Action>
    var approvals: map<nat, Approval>
    var executions: map<nat, Execution>
    var sent: seq<Sent>
    var publications: seq<Publication>
    var metrics: map<nat, Metric>
    var results: seq<ExperimentResult>
    var learnings: seq<Learning>

    constructor ()
      ensures View() == INIT
    {
      w, decisions, checkpoints, lines, accounts := JR.INIT, map[], map[], map[], map[];
      controls, owners, actions, approvals, executions := Controls(false, false, false), {}, map[], map[], map[];
      sent, publications, metrics, results, learnings := [], [], map[], [], [];
    }

    /** No attempt is in flight and no interpretation pending between two methods. */
    function View(): Store
      reads this
    {
      Store(w, decisions, checkpoints, lines, accounts, controls, owners, actions, approvals, executions, map[], sent,
            publications, metrics, map[], results, learnings)
    }

    method CreateCheckpoint(d: nat, spec: C.Spec) returns (r: Result<C.Spec>)
      modifies this`checkpoints
      ensures View() == CheckpointStep(old(View()), d, spec)
      ensures ErrorOf(r) == ErrorOf(DefineCheckpoint(old(View()), d, spec))
      ensures r.Ok? ==> d in checkpoints && r.value == checkpoints[d] == spec
    {
      if d !in decisions || decisions[d].experiment.None? { return Err(NotFound); }
      if !decisions[d].experiment.value.metricOk { return Err(NotEligible); }
      if d in checkpoints {
        if checkpoints[d] != spec { return Err(ImmutableContract); }
        return Ok(spec);
      }
      if Proposed(actions, d) { return Err(ImmutableContract); }
      checkpoints := checkpoints[d := spec];
      return Ok(spec);
    }

    method CreateActionProposal(id: nat, wf: nat, account: nat, hasSecret: bool, rightsOk: bool)
        returns (r: Result<nat>)
      requires id !in actions
      modifies this`actions
      ensures View() == ProposeStep(old(View()), id, wf, account, hasSecret, rightsOk)
      ensures ErrorOf(r) == ErrorOf(Propose(old(View()), id, wf, account, hasSecret, rightsOk))
      ensures r.Ok? ==>
        && r.value in actions && BindingHolds(View(), actions[r.value])
        && SameKey(actions[r.value], wf, lines[wf].flow.finalVersion.value, account, accounts[account].chat,
                   actions[r.value].text)
    {
      if wf !in lines { return Err(NotFound); }
      var flow := lines[wf].flow;
      if !flow.status.ReadyForActionProposal? || flow.finalVersion.None? { return Err(NotReady); }
      var version := flow.finalVersion.value;
      if !IsFinal(View(), wf, version) { return Err(NotFound); }
      if account !in accounts { return Err(NotFound); }
      var text, chat := Body(View(), wf, version), accounts[account].chat;
      if hasSecret { return Err(SecretRejected); }
      if a :| a in actions && SameKey(actions[a], wf, version, account, chat, text) { return Ok(a); }
      var reviews := EvaluateControllers(View(), wf, version, accounts[account], rightsOk);
      var pass := ReviewsAllPass(reviews);
      var permitted := Open(controls) && pass;
      actions := actions[id := Action(if permitted then APPROVAL_REQUIRED else BLOCKED, wf, version, lines[wf].decision,
                                      account, chat, text, pass, permitted)];
      return Ok(id);
    }

    method ApproveActionProposal(action: nat, user: nat, p: nat, x: nat, job: nat) returns (r: Result<nat>)
      requires OnePerAction(View()) && FreshIds(View(), p, x, job)
      modifies this`actions, this`approvals, this`executions, this`w
      ensures View() == Approve(old(View()), action, user, p, x, job)
      ensures r.Ok? <==> Approvable(old(View()), action, user)
      ensures r.Err? ==> r.error == if action !in old(actions) then NotFound else NotEligible
      ensures r.Ok? ==> r.value in executions && executions[r.value].action == action
    {
      if action !in actions { return Err(NotFound); }
      if user !in owners { return Err(NotEligible); }
      var a := actions[action];
      if !(a.status.APPROVAL_REQUIRED? || a.status.APPROVED?) { return Err(NotEligible); }
      if !a.permitted || !BindingHolds(View(), a) { return Err(NotEligible); }
      var approval, execution := p, x;
      if q :| q in approvals && approvals[q].action == action { approval := q; }
      if y :| y in executions && executions[y].action == action { execution := y; }
      OnlyChoice(View(), action, p, x, approval, execution);
      WriteApproval(action, user, approval, execution, job);
      return Ok(execution);
    }

    method WriteApproval(action: nat, user: nat, approval: nat, execution: nat, job: nat)
      requires action in actions
      modifies this`actions, this`approvals, this`executions, this`w
      ensures View() == ApproveWith(old(View()), action, user, approval, execution, job)
    {
      var a := actions[action];
      actions := actions[action := a.(status := APPROVED)];
      if approval !in approvals {
        approvals := approvals[approval := Approval(action, a.workflow, a.version, user)];
      }
      if execution !in executions {
        executions := executions[execution := Execution(action, approval, PENDING, job)];
      }
      w := JR.Create1(w, job, PublishKey(execution), 1, w.now);
    }

    method InterpretCheckpoint(metric: nat) returns (r: Result<nat>)
      modifies this`results, this`decisions
      ensures View() == CommitResult(ReadCheckpoint(old(View()), 0, metric), 0)
      ensures r.Ok? ==> r.value < |results| && results[r.value].metric == metric
      ensures r.Ok? <==> (metric in metrics && Interpreted(old(View()), metric)) || MayInterpret(old(View()), metric)
      ensures r.Err? && (metric !in metrics || metrics[metric].decision !in checkpoints) ==> r.error == NotFound
      ensures r.Err? && metric in metrics && metrics[metric].decision in checkpoints ==>
        var d := metrics[metric].decision;
        r.error == if d !in old(decisions) || old(decisions)[d].experiment.None? then NotFound
                   else if old(decisions)[d].experiment.value.status != RUNNING then NotEligible
                   else C.Classify(checkpoints[d], metrics[metric].reading).error
      ensures r.Ok? ==> !Interpreted(old(View()), metric) ==>
        results == old(results) + [ResultFor(old(View()), metric)]
    {
      InterpretAlone(View(), metric);
      if metric !in metrics { return Err(NotFound); }
      if i :| 0 <= i < |results| && results[i].metric == metric { return Ok(i); }
      var m := metrics[metric];
      if m.decision !in checkpoints { return Err(NotFound); }
      if m.decision !in decisions || decisions[m.decision].experiment.None? { return Err(NotFound); }
      if !decisions[m.decision].experiment.value.status.RUNNING? { return Err(NotEligible); }
      var c := C.Classify(checkpoints[m.decision], m.reading);
      if c.Err? { return Err(c.error); }
      results := results + [ExperimentResult(metric, m.decision, c.value)];
      decisions := SetExperiment(decisions, m.decision, COMPLETE);
      return Ok(|results| - 1);
    }

    method CreateGovernedLearning(result: nat) returns (r: Result<nat>)
      modifies this`learnings
      ensures View() == Learn(old(View()), result)
      ensures r.Ok? <==> result < |results|
      ensures r.Ok? ==> r.value < |learnings| && learnings[r.value].result == result
    {
      if result >= |results| { return Err(NotFound); }
      if i :| 0 <= i < |learnings| && learnings[i].result == result { return Ok(i); }
      learnings := learnings + [Learning(result, results[result].decision)];
      return Ok(|learnings| - 1);
    }

    /** The first of the preflight's tests that fails; none exactly when nothing stands against sending. */
    method PreflightBlockReason(x: nat) returns (reason: Option<BlockReason>)
      requires x in executions && executions[x].action in actions
      ensures reason.None? <==> Unobstructed(View(), x)
      ensures reason.Some? ==> Applies(reason.value, View(), x)
    {
      var e, a := executions[x], actions[executions[x].action];
      if !a.permitted { return Some(PermissionNotEligible); }
      if !a.reviewsPass { return Some(ControllerNotPassed); }
      if controls.writesRevoked { return Some(WritesRevoked); }
      if controls.executionPaused { return Some(ExecutionPaused); }
      if controls.automationPaused { return Some(AutomationPaused); }
      if e.approval !in approvals { return Some(MismatchedApproval); }
      var p := approvals[e.approval];
      if p.action != e.action || p.workflow != a.workflow || p.version != a.version {
        return Some(MismatchedApproval);
      }
      if a.workflow !in lines { return Some(StaleVersion); }
      var flow := lines[a.workflow].flow;
      if flow.status != PW.ReadyForActionProposal || flow.finalVersion != Some(a.version) {
        return Some(StaleVersion);
      }
      if a.version == 0 || a.version > |flow.versions| || flow.versions[a.version - 1].draft.body != a.text {
        return Some(StaleVersion);
      }
      if a.account !in accounts || !accounts[a.account].ready { return Some(ConnectorNotReady); }
      if accounts[a.account].chat != a.chat { return Some(TargetChanged); }
      if a.decision in decisions && decisions[a.decision].experiment.Some? {
        if decisions[a.decision].experiment.value.status != DRAFT { return Some(ExperimentNotDraft); }
      }
      return None;
    }

    /** One publish attempt, from its preflight to its commit, with nobody else acting.  The connector's answer is
        a parameter; it is asked for exactly when nothing stands against sending and nothing is decided yet. */
    method HandlePublish(t: JR.Ticket, answer: Outcome) returns (called: bool)
      requires Executing(View(), t) && w.live[t].phase == JR.Executing(false)
      requires executions[w.jobs[t.job].key.execution].action in actions
      modifies this`w, this`sent, this`executions, this`actions, this`publications, this`decisions
      ensures View() == Finish(Send(Preflight(old(View()), t), t), t, answer)
      ensures called <==> ShouldSend(old(View()), old(w).jobs[t.job].key.execution)
      ensures
        var x := old(w).jobs[t.job].key.execution;
        var action := old(executions)[x].action;
        sent == if called then old(sent) + [Sent(t, x, action, old(actions)[action].text, old(actions)[action].chat)]
                else old(sent)
    {
      ghost var s := View();
      var x := w.jobs[t.job].key.execution;
      var action := executions[x].action;
      var plan := MakePlan(x);
      called := plan.Go?;
      AttemptAlone(s, t, answer);
      if called {
        w := JR.Call1(w, t);
        sent := sent + [Sent(t, x, action, plan.text, plan.chat)];
      }
      assert View() == Called(s, t, plan);
      RecordOutcome(x, plan, answer);
      w := JR.Commit1(w, t);
    }

    method MakePlan(x: nat) returns (plan: Plan)
      requires x in executions && executions[x].action in actions
      ensures plan == PlanFor(View(), x)
      ensures plan.Go? <==> ShouldSend(View(), x)
      ensures plan.Go? ==>
        plan == Go(x, executions[x].action, actions[executions[x].action].text, actions[executions[x].action].chat)
    {
      PlanIff(View(), x);
      if executions[x].status.SUCCEEDED? || executions[x].status.UNKNOWN_EXTERNAL_OUTCOME? { return Skip; }
      var reason := PreflightBlockReason(x);
      if reason.Some? { return Halt; }
      if exists i :: 0 <= i < |publications| && publications[i].execution == x { return Confirm; }
      var action := executions[x].action;
      return Go(x, action, actions[action].text, actions[action].chat);
    }

    method RecordOutcome(x: nat, plan: Plan, answer: Outcome)
      requires x in executions && executions[x].action in actions
      modifies this`executions, this`actions, this`publications, this`decisions
      ensures View() == Recorded(old(View()), x, plan, answer)
    {
      match plan {
        case Skip =>
        case Halt => SetRows(x, HALTED, Some(BLOCKED));
        case Confirm => SetRows(x, SUCCEEDED, Some(EXECUTED));
        case Go(_, _, _, _) =>
          match answer {
            case Ambiguous => SetRows(x, UNKNOWN_EXTERNAL_OUTCOME, None);
            case Rejected => SetRows(x, FAILED, Some(BLOCKED));
            case Published =>
              var action := executions[x].action;
              var d := actions[action].decision;
              publications := publications + [Publication(x, action, d)];
              decisions := SetExperiment(decisions, d, RUNNING);
              SetRows(x, SUCCEEDED, Some(EXECUTED));
          }
      }
    }

    method SetRows(x: nat, e: ExecutionStatus, a: Option<ActionStatus>)
      requires x in executions && executions[x].action in actions
      modifies this`executions, this`actions
      ensures View() == SetStatuses(old(View()), x, e, a)
    {
      var action := executions[x].action;
      executions := executions[x := executions[x].(status := e)];
      if a.Some? {
        actions := actions[action := actions[action].(status := a.value)];
      }
    }
  }

  // ------------------------------------------------------------ an attempt run alone

  function Called(s: Store, t: JR.Ticket, plan: Plan): Store {
    if plan.Go? then
      s.(w := JR.Call1(s.w, t), sent := s.sent + [Sent(t, plan.execution, plan.action, plan.text, plan.chat)])
    else s
  }

  /** The store after the attempt, without its plan table. */
  function Attempted(s: Store, t: JR.Ticket, answer: Outcome): Store
    requires Executing(s, t) && s.executions[s.w.jobs[t.job].key.execution].action in s.actions
  {
    var x := s.w.jobs[t.job].key.execution;
    var done := Recorded(Called(s, t, PlanFor(s, x)), x, PlanFor(s, x), answer);
    done.(w := JR.Commit1(done.w, t))
  }

  lemma CallKeepsExecuting(w: JR.World, t: JR.Ticket)
    requires t in w.live && w.live[t].phase == JR.Executing(false)
    ensures
      var v := JR.Call1(w, t);
      t in v.live && v.live[t].phase == JR.Executing(true) && v.jobs == w.jobs
  {}

  lemma PlannedAndCalled(s: Store, t: JR.Ticket, plan: Plan)
    requires s.plans == map[] && Executing(s, t) && s.w.live[t].phase == JR.Executing(false)
    ensures
      var v := Send(s.(plans := map[t := plan]), t);
      v == Called(s, t, plan).(plans := map[t := plan])
  {}

  lemma RecordedIgnoresPlans(s: Store, plans: map<JR.Ticket, Plan>, x: nat, plan: Plan, o: Outcome)
    requires x in s.executions && s.executions[x].action in s.actions
    ensures Recorded(s.(plans := plans), x, plan, o) == Recorded(s, x, plan, o).(plans := plans)
  {}

  lemma CommitClearsPlans(s: Store, t: JR.Ticket, plan: Plan)
    requires t in s.w.live && s.w.live[t].phase.Executing? && t.job in s.w.jobs
    ensures WithWorld(s.(plans := map[t := plan]), JR.Commit(t)) == s.(plans := map[], w := JR.Commit1(s.w, t))
  {
    assert JR.Step(s.w, JR.Commit(t)) == JR.Commit1(s.w, t);
    assert t !in JR.Commit1(s.w, t).live;
  }

  lemma AttemptAlone(s: Store, t: JR.Ticket, answer: Outcome)
    requires s.plans == map[] && Executing(s, t) && s.w.live[t].phase == JR.Executing(false)
    requires s.executions[s.w.jobs[t.job].key.execution].action in s.actions
    ensures Finish(Send(Preflight(s, t), t), t, answer) == Attempted(s, t, answer)
  {
    var x := s.w.jobs[t.job].key.execution;
    var plan := PlanFor(s, x);
    var called := Called(s, t, plan);
    var q := called.(plans := map[t := plan]);
    CallKeepsExecuting(s.w, t);
    assert Preflight(s, t) == s.(plans := map[t := plan]);
    PlannedAndCalled(s, t, plan);
    assert Send(Preflight(s, t), t) == q;
    PlannedMayFinish(s, t, answer);
    RecordedIgnoresPlans(called, map[t := plan], x, plan, answer);
    CommitClearsPlans(Recorded(called, x, plan, answer), t, plan);
  }

  lemma PlannedMayFinish(s: Store, t: JR.Ticket, answer: Outcome)
    requires s.plans == map[] && Executing(s, t) && s.w.live[t].phase == JR.Executing(false)
    requires s.executions[s.w.jobs[t.job].key.execution].action in s.actions
    ensures
      var plan := PlanFor(s, s.w.jobs[t.job].key.execution);
      MayFinish(Called(s, t, plan).(plans := map[t := plan]), t, answer)
  {
    CallKeepsExecuting(s.w, t);
  }
}
