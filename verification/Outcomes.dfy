/**
 Main results about publishing: provenance of every text sent, thresholds fixed before the
 action is proposed, at most one send per execution, and one outcome per decision.
 */
module Outcomes {
  import opened Basics
  import opened Jobs
  import opened Publishing
  import opened Provenance
  import JR = JobRuns
  import PW = ProductionWorkflow
  import PO = ProductionOutputs
  import RT = RunTable
  import C = Checkpoints

  // ------------------------------------------------------------ which step writes what

  predicate SamePipeline(s: Store, v: Store) {
    && v.approvals == s.approvals && v.actions == s.actions && v.executions == s.executions && v.plans == s.plans
    && v.w == s.w && v.publications == s.publications
  }

  predicate SameOutcomes(s: Store, v: Store) {
    v.decisions == s.decisions && v.publications == s.publications && v.results == s.results
  }

  /** Events that touch neither the execution pipeline nor any outcome. */
  predicate Bystander(e: Event) {
    || e.Checkpoint? || e.StartProduction? || e.Produce? || e.Register? || e.SetControls? || e.SetOwner?
    || e.MeasureMetric? || e.ReadMetric? || e.DropMetric? || e.LearnFrom?
  }

  lemma BystanderFrame(s: Store, e: Event)
    requires Bystander(e)
    ensures SamePipeline(s, Step(s, e)) && SameOutcomes(s, Step(s, e))
  {}

  lemma DecisionFrame(s: Store, e: Event)
    requires e.NewDecision? || e.CommitMetric?
    ensures SamePipeline(s, Step(s, e)) && (e.NewDecision? ==> Step(s, e).results == s.results)
  {}

  /** Only interpretations touch what is pending. */
  lemma PendingFrame(s: Store, e: Event)
    requires !e.ReadMetric? && !e.CommitMetric? && !e.DropMetric?
    ensures Step(s, e).pending == s.pending
  {
    if e.FinishOf? {
      assert Step(s, e) == Finish(s, e.ticket, e.outcome);
    } else if e.Runtime? {
      assert Step(s, e) == if Foreign(s, e.event) then WithWorld(s, e.event) else s;
    }
  }

  lemma ProposeFrame(s: Store, e: Event)
    requires e.ProposeAction?
    ensures
      var v := Step(s, e);
      && SameOutcomes(s, v) && v.approvals == s.approvals && v.executions == s.executions && v.plans == s.plans
         && v.w == s.w
      && (forall a :: a in v.actions ==> a in s.actions || a == e.action)
  {}

  lemma ApproveFrame(s: Store, e: Event)
    requires e.ApproveAction?
    ensures
      var v := Step(s, e);
      && SameOutcomes(s, v) && v.plans == s.plans
      && (forall a :: a in v.actions ==> a in s.actions)
      && (forall p :: p in v.approvals && p !in s.approvals ==>
            e.user in s.owners && v.approvals[p].user == e.user && v.approvals[p].action == e.action)
      && (forall x :: x in s.executions ==> v.executions[x] == s.executions[x])
      && (forall x :: x in v.executions && x !in s.executions ==> v.executions[x].status.PENDING?)
  {}

  lemma PreflightFrame(s: Store, e: Event)
    requires e.PreflightOf?
    ensures
      var v := Step(s, e);
      && SameOutcomes(s, v) && v.approvals == s.approvals && v.actions == s.actions && v.executions == s.executions
      && v.w == s.w
  {}

  lemma SendFrame(s: Store, e: Event)
    requires e.SendOf?
    ensures
      var v := Step(s, e);
      && SameOutcomes(s, v) && v.approvals == s.approvals && v.actions == s.actions && v.executions == s.executions
      && v.plans == s.plans
  {}

  lemma RuntimeFrame(s: Store, e: Event)
    requires e.Runtime?
    ensures
      var v := Step(s, e);
      && SameOutcomes(s, v) && v.approvals == s.approvals && v.actions == s.actions && v.executions == s.executions
      && (forall t :: t in v.plans ==> t in s.plans && v.plans[t] == s.plans[t])
  {
    if Foreign(s, e.event) {
      WithWorldFrame(s, e.event);
    }
  }

  lemma WithWorldFrame(s: Store, e: JR.Event)
    ensures
      var v := WithWorld(s, e);
      && SameOutcomes(s, v) && v.approvals == s.approvals && v.actions == s.actions && v.executions == s.executions
      && (forall t :: t in v.plans ==> t in s.plans && v.plans[t] == s.plans[t])
  {}

  lemma RecordedFrame(s: Store, x: nat, plan: Plan, o: Outcome)
    requires x in s.executions && s.executions[x].action in s.actions
    ensures
      var v := Recorded(s, x, plan, o);
      && v.w == s.w && v.plans == s.plans && v.approvals == s.approvals && v.results == s.results
      && (forall a :: a in v.actions ==> a in s.actions)
      && (forall y :: y in v.executions ==> y in s.executions && (y != x ==> v.executions[y] == s.executions[y]))
  {}

  /** An attempt of execution x commits in this step. */
  predicate Commits(s: Store, e: Event, x: nat) {
    e.FinishOf? && MayFinish(s, e.ticket, e.outcome) && s.w.jobs[e.ticket.job].key.execution == x
  }

  lemma FinishFrame(s: Store, e: Event)
    requires e.FinishOf?
    ensures
      var v := Step(s, e);
      && v.approvals == s.approvals && v.results == s.results
      && (forall a :: a in v.actions ==> a in s.actions)
      && (forall t :: t in v.plans ==> t in s.plans && v.plans[t] == s.plans[t])
      && (forall x :: x in v.executions ==>
            x in s.executions && (Commits(s, e, x) || v.executions[x] == s.executions[x]))
  {
    if MayFinish(s, e.ticket, e.outcome) {
      RecordedFrame(s, s.w.jobs[e.ticket.job].key.execution, s.plans[e.ticket], e.outcome);
    }
  }

  /** Only an approval step adds approvals and executions, only a proposal step adds actions, and
      an execution's row changes only when one of its own attempts commits. */
  lemma RowOrigins(s: Store, e: Event)
    ensures e.ApproveAction? || Step(s, e).approvals == s.approvals
    ensures forall a :: a in Step(s, e).actions ==> a in s.actions || (e.ProposeAction? && a == e.action)
    ensures forall x :: x in Step(s, e).executions ==>
      if x in s.executions then Commits(s, e, x) || Step(s, e).executions[x] == s.executions[x]
      else Step(s, e).executions[x].status.PENDING?
  {
    if Bystander(e) {
      BystanderFrame(s, e);
    } else if e.NewDecision? || e.CommitMetric? {
      DecisionFrame(s, e);
    } else if e.ProposeAction? {
      ProposeFrame(s, e);
    } else if e.ApproveAction? {
      ApproveFrame(s, e);
    } else if e.PreflightOf? {
      PreflightFrame(s, e);
    } else if e.SendOf? {
      SendFrame(s, e);
    } else if e.FinishOf? {
      FinishFrame(s, e);
    } else {
      RuntimeFrame(s, e);
    }
  }

  // ------------------------------------------------------------ runs

  lemma {:induction false} RunPersists(es: seq<Event>, k: nat)
    requires k <= |es|
    ensures Persists(Run(INIT, es[..k]), Run(INIT, es))
  {
    if k == |es| {
      assert es[..k] == es;
      NothingLost(Run(INIT, es), Run(INIT, es));
    } else {
      var p := es[..|es| - 1];
      assert p[..k] == es[..k];
      RunPersists(p, k);
      EveryRunKeepsInv(p);
      StepPersists(Run(INIT, p), es[|es| - 1]);
      PersistsTransitive(Run(INIT, es[..k]), Run(INIT, p), Run(INIT, es));
    }
  }

  lemma RunPrefix(s: Store, es: seq<Event>, k: nat)
    requires k < |es|
    ensures Run(s, es[..k + 1]) == Step(Run(s, es[..k]), es[k])
  {
    assert es[..k + 1][..k] == es[..k];
  }

  /** Step k of the run added the approval, and its user was an owner then. */
  ghost predicate ApprovedAt(es: seq<Event>, k: nat, p: nat, a: Approval) {
    && k < |es| && es[k].ApproveAction? && es[k].user == a.user && es[k].action == a.action
    && a.user in Run(INIT, es[..k]).owners
    && p !in Run(INIT, es[..k]).approvals && p in Run(INIT, es[..k + 1]).approvals
  }

  lemma ApprovalStep(s: Store, e: Event, p: nat)
    requires LinesOk(s) && p in Step(s, e).approvals
    ensures p in s.approvals ==> Step(s, e).approvals[p] == s.approvals[p]
    ensures p !in s.approvals ==>
      e.ApproveAction? && e.user in s.owners
      && e.user == Step(s, e).approvals[p].user && e.action == Step(s, e).approvals[p].action
  {
    RowOrigins(s, e);
    StepPersists(s, e);
    if e.ApproveAction? {
      ApproveFrame(s, e);
    }
  }

  lemma {:induction false} ApprovalsAreByOwners(es: seq<Event>, p: nat)
    requires p in Run(INIT, es).approvals
    ensures exists k: nat :: ApprovedAt(es, k, p, Run(INIT, es).approvals[p])
  {
    var q, e := es[..|es| - 1], es[|es| - 1];
    EveryRunLinesOk(q);
    ApprovalStep(Run(INIT, q), e, p);
    if p in Run(INIT, q).approvals {
      ApprovalsAreByOwners(q, p);
      var a := Run(INIT, q).approvals[p];
      var k: nat :| ApprovedAt(q, k, p, a);
      assert q[..k] == es[..k] && q[..k + 1] == es[..k + 1];
      assert ApprovedAt(es, k, p, a);
    } else {
      assert es[..|es| - 1 + 1] == es;
      assert ApprovedAt(es, |es| - 1, p, Run(INIT, es).approvals[p]);
    }
  }

  lemma EveryRunLinesOk(es: seq<Event>)
    ensures LinesOk(Run(INIT, es))
  {
    EveryRunKeepsInv(es);
  }

  /** The text is the body of this last version: its writer's draft, which each of the seven controllers let pass. */
  ghost predicate ClearVersion(flow: PW.Workflow, version: nat, text: string) {
    && version == |flow.versions| > 0 && text == flow.versions[version - 1].draft.body
    && PW.Cleared(flow.versions[version - 1], flow.evidence)
    && RT.Settled(flow.rows, PW.Writer(version), PW.DraftOutput(flow.versions[version - 1].draft))
    && forall k :: 0 <= k < 7 ==> PO.SaidClear(flow.rows, version, k)
  }

  /** The text is the body of the final, highest, cleared version of a READY workflow. */
  ghost predicate FromClearedVersion(s: Store, a: Action, text: string) {
    IsFinal(s, a.workflow, a.version) && ClearVersion(s.lines[a.workflow].flow, a.version, text)
  }

  lemma ReadyFlowIsClear(flow: PW.Workflow)
    requires PW.Inv(flow) && PO.Grounded(flow) && flow.status.ReadyForActionProposal?
    ensures |flow.versions| > 0 && flow.finalVersion == Some(|flow.versions|)
    ensures ClearVersion(flow, |flow.versions|, flow.versions[|flow.versions| - 1].draft.body)
  {
    forall k | 0 <= k < 7
      ensures PO.SaidClear(flow.rows, |flow.versions|, k)
    {
      PO.ReadyMeansClear(flow, k);
    }
    PO.ReadyMeansClear(flow, 0);
  }

  lemma ActionTextIsCleared(s: Store, id: nat)
    requires LinesOk(s) && id in s.actions && BindingHolds(s, s.actions[id])
    ensures FromClearedVersion(s, s.actions[id], s.actions[id].text)
  {
    ReadyFlowIsClear(s.lines[s.actions[id].workflow].flow);
  }

  /** Publication provenance, for every text ever handed to the connector in any run. */
  lemma EverySentTextIsApproved(es: seq<Event>, i: nat)
    requires i < |Run(INIT, es).sent|
    ensures
      var s := Run(INIT, es);
      var m := s.sent[i];
      && m.action in s.actions && m.execution in s.executions && s.executions[m.execution].action == m.action
      && var a, p := s.actions[m.action], s.executions[m.execution].approval;
         && FromClearedVersion(s, a, m.text) && m.chat == a.chat
         && p in s.approvals && s.approvals[p].action == m.action
         && s.approvals[p].workflow == a.workflow && s.approvals[p].version == a.version
         && exists k: nat :: ApprovedAt(es, k, p, s.approvals[p])
  {
    EveryRunKeepsInv(es);
    var s := Run(INIT, es);
    assert SentOk(s, i);
    var m := s.sent[i];
    assert ExecutionOk(s, m.execution);
    assert ApprovalOk(s, s.executions[m.execution].approval);
    assert ActionOk(s, m.action);
    ActionTextIsCleared(s, m.action);
    ApprovalsAreByOwners(es, s.executions[m.execution].approval);
  }

  // ------------------------------------------------------------ thresholds

  lemma CheckpointsFrame(s: Store, e: Event)
    ensures e.Checkpoint? || Step(s, e).checkpoints == s.checkpoints
  {
    if e.FinishOf? {
      assert Step(s, e) == Finish(s, e.ticket, e.outcome);
    } else if e.Runtime? {
      assert Step(s, e) == if Foreign(s, e.event) then WithWorld(s, e.event) else s;
    }
  }

  lemma NoRetrofit(s: Store, c: nat, spec: C.Spec, d: nat)
    requires Proposed(s.actions, d) && d in CheckpointStep(s, c, spec).checkpoints
    ensures d in s.checkpoints
  {}

  lemma ProposalStays(s: Store, v: Store, d: nat)
    requires Proposed(s.actions, d) && Persists(s, v)
    ensures Proposed(v.actions, d)
  {
    var a :| a in s.actions && s.actions[a].decision == d;
    assert a in v.actions && v.actions[a].decision == d;
  }

  /** Once a decision has a proposal, its checkpoint neither appears nor changes. */
  lemma ProposalFreezesCheckpoint(s: Store, e: Event, d: nat)
    requires Inv(s) && Proposed(s.actions, d)
    ensures d in Step(s, e).checkpoints <==> d in s.checkpoints
    ensures d in s.checkpoints ==> Step(s, e).checkpoints[d] == s.checkpoints[d]
    ensures Proposed(Step(s, e).actions, d)
  {
    StepPersists(s, e);
    ProposalStays(s, Step(s, e), d);
    CheckpointsFrame(s, e);
    if e.Checkpoint? && d in Step(s, e).checkpoints {
      NoRetrofit(s, e.decision, e.spec, d);
    }
  }

  lemma {:induction false} CheckpointFrozen(es: seq<Event>, k: nat, d: nat)
    requires k <= |es| && Proposed(Run(INIT, es[..k]).actions, d)
    ensures
      var before, after := Run(INIT, es[..k]), Run(INIT, es);
      && (d in after.checkpoints <==> d in before.checkpoints)
      && (d in before.checkpoints ==> after.checkpoints[d] == before.checkpoints[d])
      && Proposed(after.actions, d)
  {
    if k == |es| {
      assert es[..k] == es;
    } else {
      var p := es[..|es| - 1];
      assert p[..k] == es[..k];
      CheckpointFrozen(p, k, d);
      EveryRunKeepsInv(p);
      ProposalFreezesCheckpoint(Run(INIT, p), es[|es| - 1], d);
    }
  }

  /** Step k of the run proposed the action. */
  ghost predicate ProposedAt(es: seq<Event>, k: nat, action: nat) {
    && k < |es| && es[k].ProposeAction? && es[k].action == action
    && action !in Run(INIT, es[..k]).actions && action in Run(INIT, es[..k + 1]).actions
  }

  lemma {:induction false} ActionOrigin(es: seq<Event>, action: nat)
    requires action in Run(INIT, es).actions
    ensures exists k: nat :: ProposedAt(es, k, action)
  {
    var p, e := es[..|es| - 1], es[|es| - 1];
    RowOrigins(Run(INIT, p), e);
    if action in Run(INIT, p).actions {
      ActionOrigin(p, action);
      var k: nat :| ProposedAt(p, k, action);
      assert p[..k] == es[..k] && p[..k + 1] == es[..k + 1];
      assert ProposedAt(es, k, action);
    } else {
      assert es[..|es| - 1 + 1] == es;
      assert ProposedAt(es, |es| - 1, action);
    }
  }

  /** Step k proposed the action, and the checkpoint of d was registered before it. */
  ghost predicate PreregisteredAt(es: seq<Event>, k: nat, action: nat, d: nat, spec: C.Spec) {
    && ProposedAt(es, k, action)
    && d in Run(INIT, es[..k]).checkpoints && Run(INIT, es[..k]).checkpoints[d] == spec
  }

  lemma PreregisteredByProposal(es: seq<Event>, k: nat, action: nat)
    requires ProposedAt(es, k, action) && action in Run(INIT, es).actions
    requires
      var s := Run(INIT, es);
      var a := s.actions[action];
      a.reviewsPass && a.decision in s.decisions && s.decisions[a.decision].experiment.Some?
    ensures
      var s := Run(INIT, es);
      var d := s.actions[action].decision;
      d in s.checkpoints && PreregisteredAt(es, k, action, d, s.checkpoints[d])
  {
    var before, after := Run(INIT, es[..k]), Run(INIT, es[..k + 1]);
    RunPrefix(INIT, es, k);
    CheckpointsFrame(before, es[k]);
    EveryRunKeepsInv(es[..k + 1]);
    assert ActionOk(after, action);
    RunPersists(es, k + 1);
  }

  /** Thresholds fixed in advance: for every publication of a decision with an experiment, the
      checkpoint of today is the one that was there before its action was proposed. */
  lemma ThresholdsFixed(es: seq<Event>, i: nat)
    requires i < |Run(INIT, es).publications|
    requires
      var s := Run(INIT, es);
      s.publications[i].decision in s.decisions && s.decisions[s.publications[i].decision].experiment.Some?
    ensures
      var s := Run(INIT, es);
      var q := s.publications[i];
      q.decision in s.checkpoints
      && exists k: nat :: PreregisteredAt(es, k, q.action, q.decision, s.checkpoints[q.decision])
  {
    var s := Run(INIT, es);
    var q := s.publications[i];
    EveryRunKeepsInv(es);
    assert PublicationOk(s, i);
    ActionOrigin(es, q.action);
    var k: nat :| ProposedAt(es, k, q.action);
    PreregisteredByProposal(es, k, q.action);
  }

  /** Every experiment result classifies its reading by the checkpoint registered before the
      measured publication was proposed. */
  lemma ResultsUsePreregisteredThresholds(es: seq<Event>, r: nat)
    requires r < |Run(INIT, es).results|
    ensures
      var s := Run(INIT, es);
      var result := s.results[r];
      && result.metric in s.metrics
      && var m := s.metrics[result.metric];
         && m.publication < |s.publications| && s.publications[m.publication].decision == result.decision
         && C.Classify(m.contract, m.reading) == Ok(result.class_)
         && exists k: nat :: PreregisteredAt(es, k, s.publications[m.publication].action, result.decision, m.contract)
  {
    var s := Run(INIT, es);
    EveryRunKeepsInv(es);
    assert ResultOk(s, r);
    assert MetricOk(s, s.results[r].metric);
    ThresholdsFixed(es, s.metrics[s.results[r].metric].publication);
  }

  // ------------------------------------------------------------ at most once

  /** The move of the job runtime inside a step; a clock reading of the present stands for none. */
  ghost function WorldEvent(s: Store, e: Event): JR.Event {
    match e
    case ApproveAction(action, user, p, x, job) =>
      if Approvable(s, action, user) && FreshIds(s, p, x, job)
      then JR.Create(job, PublishKey(ExecutionOf(s, action, x)), 1, s.w.now) else JR.Tick(s.w.now)
    case SendOf(t) => if MaySend(s, t) then JR.Call(t) else JR.Tick(s.w.now)
    case FinishOf(t, o) => if MayFinish(s, t, o) then JR.Commit(t) else JR.Tick(s.w.now)
    case Runtime(je) => if Foreign(s, je) then je else JR.Tick(s.w.now)
    case _ => JR.Tick(s.w.now)
  }

  lemma TickOfPresent(w: JR.World)
    ensures JR.Step(w, JR.Tick(w.now)) == w
  {}

  lemma ApproveMovesWorld(s: Store, e: Event)
    requires e.ApproveAction?
    ensures Step(s, e).w == JR.Step(s.w, WorldEvent(s, e))
  {
    TickOfPresent(s.w);
    if Approvable(s, e.action, e.user) && FreshIds(s, e.approval, e.execution, e.job) {
      var key := PublishKey(ExecutionOf(s, e.action, e.execution));
      assert JR.Step(s.w, JR.Create(e.job, key, 1, s.w.now)) == JR.Create1(s.w, e.job, key, 1, s.w.now);
    }
  }

  lemma SendMovesWorld(s: Store, e: Event)
    requires e.SendOf?
    ensures Step(s, e).w == JR.Step(s.w, WorldEvent(s, e))
  {
    TickOfPresent(s.w);
    assert JR.Step(s.w, JR.Call(e.ticket)) == JR.Call1(s.w, e.ticket);
  }

  lemma WithWorldMoves(s: Store, e: JR.Event)
    ensures WithWorld(s, e).w == JR.Step(s.w, e)
  {}

  lemma FinishMovesWorld(s: Store, e: Event)
    requires e.FinishOf? || e.Runtime?
    ensures Step(s, e).w == JR.Step(s.w, WorldEvent(s, e))
  {
    TickOfPresent(s.w);
    if e.FinishOf? && MayFinish(s, e.ticket, e.outcome) {
      WithWorldMoves(Recorded(s, s.w.jobs[e.ticket.job].key.execution, s.plans[e.ticket], e.outcome),
        JR.Commit(e.ticket));
    } else if e.Runtime? && Foreign(s, e.event) {
      WithWorldMoves(s, e.event);
    }
  }

  lemma WorldMoves(s: Store, e: Event)
    ensures Step(s, e).w == JR.Step(s.w, WorldEvent(s, e))
  {
    if e.ApproveAction? {
      ApproveMovesWorld(s, e);
    } else if e.SendOf? {
      SendMovesWorld(s, e);
    } else if e.FinishOf? || e.Runtime? {
      FinishMovesWorld(s, e);
    } else {
      TickOfPresent(s.w);
      if Bystander(e) {
        BystanderFrame(s, e);
      } else if e.NewDecision? || e.CommitMetric? {
        DecisionFrame(s, e);
      } else if e.ProposeAction? {
        ProposeFrame(s, e);
      } else {
        PreflightFrame(s, e);
      }
    }
  }

  predicate Settled(s: Store, x: nat) {
    && x in s.executions && s.executions[x].job in s.w.jobs
    && Terminal(s.w.jobs[s.executions[x].job]) && JR.Idle(s.w, s.executions[x].job)
  }

  /** Nothing that happens later changes a settled execution or sends for it again. */
  lemma SettledStays(s: Store, e: Event, x: nat)
    requires Inv(s) && Settled(s, x)
    ensures Settled(Step(s, e), x) && Step(s, e).executions[x] == s.executions[x]
    ensures SentCount(Step(s, e).sent, x) == SentCount(s.sent, x)
  {
    assert ExecutionOk(s, x);
    if e.FinishOf? && MayFinish(s, e.ticket, e.outcome) {
      TicketNamesExecution(s, e.ticket);
    }
    RowOrigins(s, e);
    EveryStepKeepsJob(s, e, x);
    WorldMoves(s, e);
    JR.SettledStep(s.w, WorldEvent(s, e), s.executions[x].job);
    StepKeepsInv(s, e);
  }

  lemma {:induction false} SettledForever(es: seq<Event>, k: nat, x: nat)
    requires k <= |es| && Settled(Run(INIT, es[..k]), x)
    ensures
      var before, after := Run(INIT, es[..k]), Run(INIT, es);
      && Settled(after, x) && after.executions[x] == before.executions[x]
      && SentCount(after.sent, x) == SentCount(before.sent, x)
  {
    if k == |es| {
      assert es[..k] == es;
    } else {
      var p := es[..|es| - 1];
      assert p[..k] == es[..k];
      SettledForever(p, k, x);
      EveryRunKeepsInv(p);
      SettledStays(Run(INIT, p), es[|es| - 1], x);
    }
  }

  /** No expired lease of the execution's job was taken over. */
  predicate NotReclaimed(s: Store, x: nat)
    requires x in s.executions
  {
    s.executions[x].job in s.w.reclaims ==> s.w.reclaims[s.executions[x].job] == 0
  }

  predicate SettledIfDone(s: Store) {
    forall x :: x in s.executions && NotReclaimed(s, x) && !s.executions[x].status.PENDING? ==> Settled(s, x)
  }

  lemma OnlyAttempt(w: JR.World, t: JR.Ticket, u: JR.Ticket)
    requires JR.Inv(w) && t in w.live && u in w.live && t.job == u.job
    requires t.job in w.jobs && w.jobs[t.job].maxAttempts == 1 && w.reclaims[t.job] == 0
    ensures t == u
  {
    assert JR.TicketIssued(w, t) && JR.TicketIssued(w, u);
  }

  lemma CommitSettles(w: JR.World, t: JR.Ticket)
    requires JR.Inv(w) && t in w.live && w.live[t].phase.Executing?
    requires t.job in w.jobs && w.jobs[t.job].maxAttempts == 1 && w.reclaims[t.job] == 0
    ensures
      var v := JR.Step(w, JR.Commit(t));
      t.job in v.jobs && Terminal(v.jobs[t.job]) && JR.Idle(v, t.job)
  {
    forall u | u in w.live && u.job == t.job
      ensures u == t
    {
      OnlyAttempt(w, t, u);
    }
  }

  lemma ReclaimsGrow(w: JR.World, e: JR.Event, j: nat)
    requires j in w.reclaims
    ensures j in JR.Step(w, e).reclaims
    ensures e.Create? && e.id !in w.jobs ==> e.id != j || w.reclaims[j] == 0 || j !in w.jobs
    ensures j in w.jobs ==> JR.Step(w, e).reclaims[j] >= w.reclaims[j]
  {}

  lemma FinishSettles(s: Store, e: Event, x: nat)
    requires Inv(s) && Commits(s, e, x) && NotReclaimed(s, x)
    ensures Settled(Step(s, e), x)
  {
    TicketNamesExecution(s, e.ticket);
    assert ExecutionOk(s, x) && s.executions[x].job == e.ticket.job;
    CommitSettles(s.w, e.ticket);
    CommitMovesWorld(s, e, x);
    EveryStepKeepsJob(s, e, x);
  }

  lemma CommitMovesWorld(s: Store, e: Event, x: nat)
    requires Commits(s, e, x)
    ensures Step(s, e).w == JR.Step(s.w, JR.Commit(e.ticket))
  {
    FinishMovesWorld(s, e);
  }

  lemma EveryStepKeepsJob(s: Store, e: Event, x: nat)
    requires Inv(s) && x in s.executions
    ensures x in Step(s, e).executions && Step(s, e).executions[x].job == s.executions[x].job
  {
    StepPersists(s, e);
  }

  lemma StepKeepsSettledIfDone(s: Store, e: Event, x: nat)
    requires Inv(s) && SettledIfDone(s)
    requires x in Step(s, e).executions && NotReclaimed(Step(s, e), x) && !Step(s, e).executions[x].status.PENDING?
    ensures Settled(Step(s, e), x)
  {
    RowOrigins(s, e);
    EveryStepKeepsJob(s, e, x);
    assert ExecutionOk(s, x);
    WorldMoves(s, e);
    ReclaimsGrow(s.w, WorldEvent(s, e), s.executions[x].job);
    if Commits(s, e, x) {
      FinishSettles(s, e, x);
    } else {
      SettledStays(s, e, x);
    }
  }

  lemma {:induction false} DoneIsSettled(es: seq<Event>)
    ensures SettledIfDone(Run(INIT, es))
  {
    if |es| > 0 {
      var p, e := es[..|es| - 1], es[|es| - 1];
      DoneIsSettled(p);
      EveryRunKeepsInv(p);
      var s, v := Run(INIT, p), Run(INIT, es);
      forall x | x in v.executions && NotReclaimed(v, x) && !v.executions[x].status.PENDING?
        ensures Settled(v, x)
      {
        StepKeepsSettledIfDone(s, e, x);
      }
    }
  }

  /** At most one send per execution, plus one for each time an expired lease of its job was
      taken over, and at most one execution per action: in every run, whatever the crashes,
      rollbacks, deliveries and repeated approvals. */
  lemma AtMostOnce(es: seq<Event>, x: nat)
    requires x in Run(INIT, es).executions
    ensures
      var s := Run(INIT, es);
      var e := s.executions[x];
      && e.job in s.w.reclaims && SentCount(s.sent, x) <= 1 + s.w.reclaims[e.job]
      && (NotReclaimed(s, x) ==> SentCount(s.sent, x) <= 1)
      && (forall y :: y in s.executions && s.executions[y].action == e.action ==> y == x)
  {
    EveryRunKeepsInv(es);
    var s := Run(INIT, es);
    assert ExecutionOk(s, x);
    JR.CallsBounded(s.w, s.executions[x].job);
  }

  /** A committed execution status is final, and nothing more is sent for it: the hypothesis on
      taken-over leases covers only what happened before. */
  lemma CommittedStatusIsFinal(es: seq<Event>, k: nat, x: nat)
    requires k <= |es| && x in Run(INIT, es[..k]).executions
    requires NotReclaimed(Run(INIT, es[..k]), x) && !Run(INIT, es[..k]).executions[x].status.PENDING?
    ensures
      var before, after := Run(INIT, es[..k]), Run(INIT, es);
      && x in after.executions && after.executions[x] == before.executions[x]
      && SentCount(after.sent, x) == SentCount(before.sent, x) <= 1
  {
    DoneIsSettled(es[..k]);
    SettledForever(es, k, x);
    AtMostOnce(es[..k], x);
  }

  // ------------------------------------------------------------ why takeovers have to be counted

  /** Another worker claims the running publish job, begins, checks and sends. */
  function TakeOver(s: Store, j: nat, worker: nat, lease: int): Store
    requires j in s.w.jobs
  {
    var u := NextTicket(s.w, j);
    Send(Preflight(Begun(s, u, worker, lease), u), u)
  }

  function Begun(s: Store, u: JR.Ticket, worker: nat, lease: int): Store {
    WithWorld(WithWorld(s, JR.Claim(u.job, worker, lease)), JR.Begin(u))
  }

  lemma ClaimAndBegin(w: JR.World, u: JR.Ticket, worker: nat, lease: int)
    requires u !in w.live && u.job in w.jobs && w.jobs[u.job].status.Running? && RowOk(w.jobs[u.job])
    requires u.number == w.jobs[u.job].attempts + 1
    ensures
      var v := JR.Step(JR.Step(w, JR.Claim(u.job, worker, lease)), JR.Begin(u));
      && u.job in v.jobs && v.jobs[u.job].key == w.jobs[u.job].key
      && (LeaseExpired(w.jobs[u.job], w.now) ==> u in v.live && v.live[u].phase == JR.Executing(false))
      && (!LeaseExpired(w.jobs[u.job], w.now) ==> u !in v.live)
  {}

  lemma PlanIgnoresWorld(s: Store, v: Store, x: nat)
    requires v == s.(w := v.w, plans := v.plans, sent := v.sent) && x in s.executions
      && s.executions[x].action in s.actions
    ensures PlanFor(v, x) == PlanFor(s, x)
  {}

  lemma SendAfterBegin(s: Store, u: JR.Ticket, x: nat)
    requires Executing(s, u) && s.w.jobs[u.job].key.execution == x && s.w.live[u].phase == JR.Executing(false)
    requires u !in s.plans && s.executions[x].action in s.actions && PlanFor(s, x).Go?
    ensures
      var g := PlanFor(s, x);
      Send(Preflight(s, u), u).sent == s.sent + [Sent(u, x, g.action, g.text, g.chat)]
  {}

  lemma NothingToSend(s: Store, u: JR.Ticket)
    requires u !in s.w.live
    ensures Send(Preflight(s, u), u).sent == s.sent
  {}

  /** While a publish attempt runs and nothing is recorded yet, a second worker sends the same text
      again exactly when the first one's lease has expired. */
  lemma TakeOverSendsAgain(s: Store, x: nat, worker: nat, lease: int)
    requires Inv(s) && x in s.executions && s.executions[x].action in s.actions && PlanFor(s, x).Go?
    requires s.executions[x].job in s.w.jobs && s.w.jobs[s.executions[x].job].status.Running?
    ensures
      var j := s.executions[x].job;
      var v := TakeOver(s, j, worker, lease);
      && SentCount(v.sent, x) == SentCount(s.sent, x) + (if LeaseExpired(s.w.jobs[j], s.w.now) then 1 else 0)
      && (LeaseExpired(s.w.jobs[j], s.w.now) ==>
            |v.sent| == |s.sent| + 1 && v.sent[|s.sent|].text == s.actions[s.executions[x].action].text)
  {
    var u := NextTicket(s.w, s.executions[x].job);
    NextTicketIsFree(s, x);
    TakeOverBy(s, u, x, worker, lease);
  }

  function NextTicket(w: JR.World, j: nat): JR.Ticket
    requires j in w.jobs
  {
    JR.Ticket(j, w.jobs[j].attempts + 1)
  }

  lemma NextTicketIsFree(s: Store, x: nat)
    requires Inv(s) && x in s.executions && s.executions[x].job in s.w.jobs
    ensures
      var u := NextTicket(s.w, s.executions[x].job);
      u !in s.w.live && u !in s.plans && RowOk(s.w.jobs[u.job]) && s.w.jobs[u.job].key == PublishKey(x)
  {
    assert ExecutionOk(s, x);
    var u := NextTicket(s.w, s.executions[x].job);
    assert !JR.TicketIssued(s.w, u);
    assert u in s.plans ==> PlanOk(s, u);
  }

  lemma TakeOverBy(s: Store, u: JR.Ticket, x: nat, worker: nat, lease: int)
    requires x in s.executions && s.executions[x].action in s.actions && PlanFor(s, x).Go?
    requires u !in s.w.live && u !in s.plans && u.job in s.w.jobs && s.w.jobs[u.job].status.Running?
    requires RowOk(s.w.jobs[u.job]) && s.w.jobs[u.job].key == PublishKey(x) && u == NextTicket(s.w, u.job)
    ensures
      var v := TakeOver(s, u.job, worker, lease);
      && SentCount(v.sent, x) == SentCount(s.sent, x) + (if LeaseExpired(s.w.jobs[u.job], s.w.now) then 1 else 0)
      && (LeaseExpired(s.w.jobs[u.job], s.w.now) ==>
            |v.sent| == |s.sent| + 1 && v.sent[|s.sent|].text == s.actions[s.executions[x].action].text)
  {
    ClaimAndBegin(s.w, u, worker, lease);
    TakenOver(s, u, worker, lease);
    var begun := Begun(s, u, worker, lease);
    if LeaseExpired(s.w.jobs[u.job], s.w.now) {
      OneMoreSend(s, begun, u, x);
    } else {
      NothingToSend(begun, u);
    }
  }

  lemma OneMoreSend(s: Store, begun: Store, u: JR.Ticket, x: nat)
    requires begun == s.(w := begun.w, plans := begun.plans)
    requires x in s.executions && s.executions[x].action in s.actions && PlanFor(s, x).Go?
    requires Executing(begun, u) && begun.w.jobs[u.job].key.execution == x
    requires begun.w.live[u].phase == JR.Executing(false) && u !in begun.plans
    ensures
      var v := Send(Preflight(begun, u), u);
      && SentCount(v.sent, x) == SentCount(s.sent, x) + 1 && |v.sent| == |s.sent| + 1
      && v.sent[|s.sent|].text == s.actions[s.executions[x].action].text
  {
    PlanIgnoresWorld(s, begun, x);
    SendAfterBegin(begun, u, x);
    SentSnoc(s.sent, Send(Preflight(begun, u), u).sent[|s.sent|], x);
  }

  lemma TakenOver(s: Store, u: JR.Ticket, worker: nat, lease: int)
    requires u !in s.plans
    ensures
      var v := Begun(s, u, worker, lease);
      && v == s.(w := v.w, plans := v.plans) && u !in v.plans
      && v.w == JR.Step(JR.Step(s.w, JR.Claim(u.job, worker, lease)), JR.Begin(u))
  {
    WithWorldMoves(s, JR.Claim(u.job, worker, lease));
    WithWorldMoves(WithWorld(s, JR.Claim(u.job, worker, lease)), JR.Begin(u));
    WithWorldFrame(s, JR.Claim(u.job, worker, lease));
    WithWorldFrame(WithWorld(s, JR.Claim(u.job, worker, lease)), JR.Begin(u));
  }
}
