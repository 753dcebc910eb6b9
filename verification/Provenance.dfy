/**
 What holds of every publish in every run: where the text comes from, who approved it, which
 checkpoint it is measured against, and how often it is sent.
 */
module Provenance {
  import opened Basics
  import opened Jobs
  import opened Publishing
  import JR = JobRuns
  import PW = ProductionWorkflow
  import PO = ProductionOutputs
  import C = Checkpoints

  // ------------------------------------------------------------ the rows

  /** Proposed from the final version of a READY workflow, with a registered checkpoint if the
      decision has an experiment. */
  predicate ActionOk(s: Store, id: nat) {
    && id in s.actions
    && var a := s.actions[id];
       && BindingHolds(s, a) && s.lines[a.workflow].decision == a.decision
       && a.decision in s.decisions && (a.permitted ==> a.reviewsPass)
       && (a.reviewsPass && s.decisions[a.decision].experiment.Some? ==> a.decision in s.checkpoints)
  }

  predicate ApprovalOk(s: Store, p: nat) {
    && p in s.approvals && s.approvals[p].action in s.actions
    && s.approvals[p].workflow == s.actions[s.approvals[p].action].workflow
    && s.approvals[p].version == s.actions[s.approvals[p].action].version
  }

  predicate ExecutionOk(s: Store, x: nat) {
    && x in s.executions
    && var e := s.executions[x];
       && e.action in s.actions && e.approval in s.approvals && s.approvals[e.approval].action == e.action
       && e.job in s.w.jobs && s.w.jobs[e.job].key == PublishKey(x) && s.w.jobs[e.job].maxAttempts == 1
  }

  /** What holds of text on its way out and of text sent. */
  predicate Sendable(s: Store, x: nat, action: nat, text: string, chat: nat) {
    && x in s.executions && s.executions[x].action == action && action in s.actions
    && s.actions[action].text == text && s.actions[action].chat == chat
    && s.actions[action].permitted && s.actions[action].reviewsPass
  }

  predicate SentOk(s: Store, i: nat) {
    && i < |s.sent|
    && Sendable(s, s.sent[i].execution, s.sent[i].action, s.sent[i].text, s.sent[i].chat)
    && s.sent[i].ticket.job == s.executions[s.sent[i].execution].job
  }

  predicate PublicationOk(s: Store, i: nat) {
    && i < |s.publications|
    && var q := s.publications[i];
       && q.execution in s.executions && s.executions[q.execution].action == q.action && q.action in s.actions
       && s.actions[q.action].decision == q.decision && s.actions[q.action].reviewsPass
  }

  predicate MetricOk(s: Store, id: nat) {
    && id in s.metrics
    && var m := s.metrics[id];
       && m.publication < |s.publications| && s.publications[m.publication].decision == m.decision
       && m.decision in s.checkpoints && m.contract == s.checkpoints[m.decision]
       && m.decision in s.decisions && s.decisions[m.decision].experiment.Some?
  }

  /** The row classifies its metric's reading by its metric's contract. */
  predicate ResultFits(s: Store, r: ExperimentResult) {
    && r.metric in s.metrics && s.metrics[r.metric].decision == r.decision
    && C.Classify(s.metrics[r.metric].contract, s.metrics[r.metric].reading) == Ok(r.class_)
  }

  predicate ResultOk(s: Store, i: nat) { i < |s.results| && ResultFits(s, s.results[i]) }

  predicate LearningOk(s: Store, i: nat) {
    && i < |s.learnings| && s.learnings[i].result < |s.results|
    && s.results[s.learnings[i].result].decision == s.learnings[i].decision
  }

  lemma RowsStayOk(s: Store, v: Store, id: nat)
    requires Persists(s, v)
    ensures ActionOk(s, id) ==> ActionOk(v, id)
    ensures ApprovalOk(s, id) ==> ApprovalOk(v, id)
    ensures ExecutionOk(s, id) ==> ExecutionOk(v, id)
    ensures SentOk(s, id) ==> SentOk(v, id)
  {}

  lemma OutcomesStayOk(s: Store, v: Store, id: nat)
    requires Persists(s, v)
    ensures PublicationOk(s, id) ==> PublicationOk(v, id)
    ensures MetricOk(s, id) ==> MetricOk(v, id)
    ensures ResultOk(s, id) ==> ResultOk(v, id)
    ensures LearningOk(s, id) ==> LearningOk(v, id)
  {}

  // ------------------------------------------------------------ the invariant

  function SentCount(sent: seq<Sent>, x: nat): nat {
    if |sent| == 0 then 0
    else SentCount(sent[..|sent| - 1], x) + if sent[|sent| - 1].execution == x then 1 else 0
  }

  ghost predicate BindingsOk(s: Store) {
    && LinesOk(s)
    && (forall a :: a in s.actions ==> ActionOk(s, a))
    && (forall p :: p in s.approvals ==> ApprovalOk(s, p))
    && (forall x :: x in s.executions ==> ExecutionOk(s, x))
  }

  /** Each action has at most one approval and at most one execution. */
  predicate OnePerAction(s: Store) {
    && (forall p, q :: p in s.approvals && q in s.approvals && s.approvals[p].action == s.approvals[q].action ==>
          p == q)
    && (forall x, y :: x in s.executions && y in s.executions && s.executions[x].action == s.executions[y].action ==>
          x == y)
  }

  predicate PlanOk(s: Store, t: JR.Ticket) {
    && t in s.plans && Executing(s, t)
    && (s.plans[t].Go? ==>
          && s.plans[t].execution == s.w.jobs[t.job].key.execution
          && Sendable(s, s.plans[t].execution, s.plans[t].action, s.plans[t].text, s.plans[t].chat))
  }

  predicate JobsKnown(s: Store) {
    forall j :: j in s.w.jobs && s.w.jobs[j].key.PublishKey? ==>
      s.w.jobs[j].key.execution in s.executions && s.executions[s.w.jobs[j].key.execution].job == j
  }

  predicate PlansOk(s: Store) { forall t :: t in s.plans ==> PlanOk(s, t) }

  predicate AttemptsOk(s: Store) { JR.Inv(s.w) && JobsKnown(s) && PlansOk(s) }

  /** The log of sent texts agrees with the outside calls of the publish jobs. */
  predicate SendsOk(s: Store) {
    && (forall i :: 0 <= i < |s.sent| ==> SentOk(s, i))
    && (forall x :: x in s.executions ==> SentCount(s.sent, x) == JR.CallCount(s.w.calls, s.executions[x].job))
  }

  predicate OutcomesOk(s: Store) {
    && (forall i :: 0 <= i < |s.publications| ==> PublicationOk(s, i))
    && (forall m :: m in s.metrics ==> MetricOk(s, m))
    && (forall r :: r in s.pending ==> ResultFits(s, s.pending[r]))
    && (forall i :: 0 <= i < |s.results| ==> ResultOk(s, i))
    && (forall i :: 0 <= i < |s.learnings| ==> LearningOk(s, i))
  }

  predicate NoDuplicates(s: Store) {
    && (forall i, k :: 0 <= i < k < |s.publications| ==> s.publications[i].execution != s.publications[k].execution)
    && (forall i, k :: 0 <= i < k < |s.results| ==> s.results[i].metric != s.results[k].metric)
    && (forall i, k :: 0 <= i < k < |s.learnings| ==> s.learnings[i].result != s.learnings[k].result)
  }

  ghost predicate Inv(s: Store) {
    BindingsOk(s) && OnePerAction(s) && AttemptsOk(s) && SendsOk(s) && OutcomesOk(s) && NoDuplicates(s)
  }

  // ------------------------------------------------------------ keeping each part

  predicate SameRows(s: Store, v: Store) {
    && (forall a :: a in v.actions ==> a in s.actions)
    && (forall p :: p in v.approvals ==> p in s.approvals)
    && (forall x :: x in v.executions ==> x in s.executions)
  }

  predicate SameLogs(s: Store, v: Store) {
    && v.publications == s.publications && v.results == s.results && v.learnings == s.learnings
       && v.metrics == s.metrics
    && v.pending == s.pending
  }

  lemma BindingsGrow(s: Store, v: Store)
    requires BindingsOk(s) && Persists(s, v) && LinesOk(v)
    requires forall a :: a in v.actions ==> a in s.actions || ActionOk(v, a)
    requires forall p :: p in v.approvals ==> p in s.approvals || ApprovalOk(v, p)
    requires forall x :: x in v.executions ==> x in s.executions || ExecutionOk(v, x)
    ensures BindingsOk(v)
  {
    forall id
      ensures ActionOk(s, id) ==> ActionOk(v, id)
      ensures ApprovalOk(s, id) ==> ApprovalOk(v, id)
      ensures ExecutionOk(s, id) ==> ExecutionOk(v, id)
    {
      RowsStayOk(s, v, id);
    }
  }

  lemma BindingsStay(s: Store, v: Store)
    requires BindingsOk(s) && OnePerAction(s) && Persists(s, v) && SameRows(s, v) && LinesOk(v)
    ensures BindingsOk(v) && OnePerAction(v)
  {
    BindingsGrow(s, v);
  }

  lemma FitStays(s: Store, v: Store, r: ExperimentResult)
    requires ContractsPersist(s, v) && ResultFits(s, r)
    ensures ResultFits(v, r)
  {}

  lemma OutcomesGrow(s: Store, v: Store)
    requires OutcomesOk(s) && Persists(s, v)
    requires forall i :: |s.publications| <= i < |v.publications| ==> PublicationOk(v, i)
    requires forall m :: m in v.metrics ==> m in s.metrics || MetricOk(v, m)
    requires forall r :: r in v.pending ==>
      (r in s.pending && v.pending[r] == s.pending[r]) || ResultFits(v, v.pending[r])
    requires forall i :: |s.results| <= i < |v.results| ==> ResultOk(v, i)
    requires forall i :: |s.learnings| <= i < |v.learnings| ==> LearningOk(v, i)
    ensures OutcomesOk(v)
  {
    forall id
      ensures PublicationOk(s, id) ==> PublicationOk(v, id)
      ensures MetricOk(s, id) ==> MetricOk(v, id)
      ensures ResultOk(s, id) ==> ResultOk(v, id)
      ensures LearningOk(s, id) ==> LearningOk(v, id)
    {
      OutcomesStayOk(s, v, id);
    }
    forall r | r in v.pending
      ensures ResultFits(v, v.pending[r])
    {
      if r in s.pending && v.pending[r] == s.pending[r] { FitStays(s, v, s.pending[r]); }
    }
  }

  lemma LogsStay(s: Store, v: Store)
    requires OutcomesOk(s) && NoDuplicates(s) && Persists(s, v) && SameLogs(s, v)
    ensures OutcomesOk(v) && NoDuplicates(v)
  {
    OutcomesGrow(s, v);
  }

  lemma SendsStay(s: Store, v: Store)
    requires SendsOk(s) && Persists(s, v) && v.sent == s.sent && (forall x :: x in v.executions ==> x in s.executions)
    requires forall x :: x in s.executions ==>
      JR.CallCount(v.w.calls, s.executions[x].job) == JR.CallCount(s.w.calls, s.executions[x].job)
    ensures SendsOk(v)
  {
    forall i | 0 <= i < |v.sent|
      ensures SentOk(v, i)
    {
      RowsStayOk(s, v, i);
    }
  }

  lemma PlanStays(s: Store, v: Store, t: JR.Ticket)
    requires PlanOk(s, t) && Persists(s, v) && t in v.plans && v.plans[t] == s.plans[t]
    requires t in v.w.live && v.w.live[t].phase.Executing?
    ensures PlanOk(v, t)
  {}

  lemma AttemptsStay(s: Store, v: Store)
    requires AttemptsOk(s) && Persists(s, v) && v.w == s.w && v.plans == s.plans
    ensures AttemptsOk(v)
  {
    forall t | t in v.plans
      ensures PlanOk(v, t)
    {
      PlanStays(s, v, t);
    }
  }

  /** Publications, metrics, results and learnings may grow; the rest of the pipeline stays. */
  lemma PipelineStays(s: Store, v: Store)
    requires Inv(s) && Persists(s, v) && SameRows(s, v) && LinesOk(v) && OutcomesOk(v) && NoDuplicates(v)
    requires v.w == s.w && v.plans == s.plans && v.sent == s.sent
    ensures Inv(v)
  {
    BindingsStay(s, v);
    SendsStay(s, v);
    AttemptsStay(s, v);
  }

  /** A step that adds no row of the execution pipeline and does not move the runtime. */
  lemma QuietKeepsInv(s: Store, v: Store)
    requires Inv(s) && Persists(s, v) && SameRows(s, v) && SameLogs(s, v) && LinesOk(v)
    requires v.w == s.w && v.plans == s.plans && v.sent == s.sent
    ensures Inv(v)
  {
    LogsStay(s, v);
    PipelineStays(s, v);
  }

  lemma ProposeKeepsInv(s: Store, id: nat, wf: nat, account: nat, hasSecret: bool, rightsOk: bool)
    requires Inv(s)
    ensures Inv(ProposeStep(s, id, wf, account, hasSecret, rightsOk))
  {
    var r := Propose(s, id, wf, account, hasSecret, rightsOk);
    if r.Ok? && r.value != s {
      var v := r.value;
      ActionAdded(s, id, v.actions[id]);
      NewActionIsOk(s, id, wf, account, hasSecret, rightsOk);
      WithNewAction(s, v, id);
    }
  }

  lemma NewActionIsOk(s: Store, id: nat, wf: nat, account: nat, hasSecret: bool, rightsOk: bool)
    requires Inv(s) && Propose(s, id, wf, account, hasSecret, rightsOk).Ok?
    requires Propose(s, id, wf, account, hasSecret, rightsOk).value != s
    ensures
      var v := Propose(s, id, wf, account, hasSecret, rightsOk).value;
      && id !in s.actions && id in v.actions && v == s.(actions := s.actions[id := v.actions[id]])
      && ActionOk(v, id)
  {}

  lemma WithNewAction(s: Store, v: Store, id: nat)
    requires Inv(s) && id !in s.actions && id in v.actions && v == s.(actions := s.actions[id := v.actions[id]])
    requires Persists(s, v) && ActionOk(v, id)
    ensures Inv(v)
  {
    LinesStay(s, v);
    BindingsGrow(s, v);
    LogsStay(s, v);
    SendsStay(s, v);
    AttemptsStay(s, v);
  }

  lemma LinesStay(s: Store, v: Store)
    requires LinesOk(s) && v.lines == s.lines && ContractsPersist(s, v)
    ensures LinesOk(v)
  {}

  // ------------------------------------------------------------ approval

  lemma CreateKeepsWorld(w: JR.World, job: nat, key: Key, at: int)
    requires JR.Inv(w)
    ensures JR.Inv(JR.Create1(w, job, key, 1, at))
  {
    JR.StepKeepsInv(w, JR.Create(job, key, 1, at));
    assert JR.Step(w, JR.Create(job, key, 1, at)) == JR.Create1(w, job, key, 1, at);
  }

  lemma PlansStay(s: Store, v: Store)
    requires PlansOk(s) && Persists(s, v)
    requires forall t :: t in v.plans ==>
      t in s.plans && v.plans[t] == s.plans[t] && t in v.w.live && v.w.live[t].phase.Executing?
    ensures PlansOk(v)
  {
    forall t | t in v.plans
      ensures PlanOk(v, t)
    {
      PlanStays(s, v, t);
    }
  }

  lemma SamePlansStay(s: Store, v: Store)
    requires PlansOk(s) && Persists(s, v) && v.plans == s.plans && v.w.live == s.w.live
    ensures PlansOk(v)
  {
    assert forall t :: t in s.plans ==> PlanOk(s, t) && t in s.w.live && s.w.live[t].phase.Executing?;
    PlansStay(s, v);
  }

  lemma CreateKeepsPlans(s: Store, v: Store, job: nat, x: nat)
    requires AttemptsOk(s) && Persists(s, v) && v.plans == s.plans && job !in s.w.jobs
    requires v.w == JR.Create1(s.w, job, PublishKey(x), 1, s.w.now)
    requires x in v.executions && (x !in s.executions ==> v.executions[x].job == job)
    requires x in s.executions ==> KeyTaken(s.w.jobs, PublishKey(x))
    ensures AttemptsOk(v)
  {
    CreateKeepsWorld(s.w, job, PublishKey(x), s.w.now);
    CreateKeepsJobsKnown(s, v, job, x);
    SamePlansStay(s, v);
  }

  lemma CreateKeepsJobsKnown(s: Store, v: Store, job: nat, x: nat)
    requires JobsKnown(s) && BindingsPersist(s, v) && job !in s.w.jobs
    requires v.w == JR.Create1(s.w, job, PublishKey(x), 1, s.w.now)
    requires x in v.executions && (x !in s.executions ==> v.executions[x].job == job)
    requires x in s.executions ==> KeyTaken(s.w.jobs, PublishKey(x))
    ensures JobsKnown(v)
  {}

  lemma {:induction false} NoCallsYet(calls: seq<JR.Ticket>, j: nat)
    requires forall i :: 0 <= i < |calls| ==> calls[i].job != j
    ensures JR.CallCount(calls, j) == 0
  {
    if |calls| > 0 {
      NoCallsYet(calls[..|calls| - 1], j);
    }
  }

  lemma {:induction false} NotSentYet(sent: seq<Sent>, x: nat)
    requires forall i :: 0 <= i < |sent| ==> sent[i].execution != x
    ensures SentCount(sent, x) == 0
  {
    if |sent| > 0 {
      NotSentYet(sent[..|sent| - 1], x);
    }
  }

  lemma NewExecutionUnsent(s: Store, x: nat, job: nat)
    requires AttemptsOk(s) && SendsOk(s) && x !in s.executions && job !in s.w.jobs
    ensures SentCount(s.sent, x) == 0 && JR.CallCount(s.w.calls, job) == 0
  {
    forall i | 0 <= i < |s.w.calls|
      ensures s.w.calls[i].job != job
    {
      assert JR.TicketIssued(s.w, s.w.calls[i]);
    }
    forall i | 0 <= i < |s.sent|
      ensures s.sent[i].execution != x
    {
      assert SentOk(s, i);
    }
    NoCallsYet(s.w.calls, job);
    NotSentYet(s.sent, x);
  }

  /** The approval and execution that approve_action_proposal ends up with. */
  predicate Chosen(s: Store, action: nat, p: nat, x: nat) {
    && (p in s.approvals ==> s.approvals[p].action == action)
    && (p !in s.approvals ==> forall q :: q in s.approvals ==> s.approvals[q].action != action)
    && (x in s.executions ==> s.executions[x].action == action)
    && (x !in s.executions ==> forall y :: y in s.executions ==> s.executions[y].action != action)
  }

  lemma KeyFollowsExecution(s: Store, x: nat)
    requires BindingsOk(s) && AttemptsOk(s)
    ensures KeyTaken(s.w.jobs, PublishKey(x)) <==> x in s.executions
  {
    if x in s.executions {
      assert ExecutionOk(s, x);
      assert s.w.jobs[s.executions[x].job].key == PublishKey(x);
    }
  }

  lemma ApprovedOnePerAction(s: Store, action: nat, user: nat, p: nat, x: nat, job: nat)
    requires OnePerAction(s) && action in s.actions && Chosen(s, action, p, x)
    ensures OnePerAction(ApproveWith(s, action, user, p, x, job))
  {}

  lemma ApprovedApprovalOk(s: Store, action: nat, user: nat, p: nat, x: nat, job: nat)
    requires Inv(s) && action in s.actions && Chosen(s, action, p, x)
    ensures ApprovalOk(ApproveWith(s, action, user, p, x, job), p)
  {
    assert p in s.approvals ==> ApprovalOk(s, p);
  }

  lemma ApprovedExecutionOk(s: Store, action: nat, user: nat, p: nat, x: nat, job: nat)
    requires Inv(s) && action in s.actions && Chosen(s, action, p, x) && job !in s.w.jobs && x !in s.executions
    ensures ExecutionOk(ApproveWith(s, action, user, p, x, job), x)
  {
    KeyFollowsExecution(s, x);
  }

  lemma ApprovedRowsOk(s: Store, action: nat, user: nat, p: nat, x: nat, job: nat)
    requires Inv(s) && action in s.actions && Chosen(s, action, p, x) && job !in s.w.jobs
    ensures
      var v := ApproveWith(s, action, user, p, x, job);
      && ApprovalOk(v, p) && (x !in s.executions ==> ExecutionOk(v, x)) && OnePerAction(v)
      && (x in s.executions ==> KeyTaken(s.w.jobs, PublishKey(x)))
  {
    KeyFollowsExecution(s, x);
    ApprovedOnePerAction(s, action, user, p, x, job);
    ApprovedApprovalOk(s, action, user, p, x, job);
    if x !in s.executions {
      ApprovedExecutionOk(s, action, user, p, x, job);
    }
  }

  lemma ApproveWithKeepsInv(s: Store, action: nat, user: nat, p: nat, x: nat, job: nat)
    requires Inv(s) && action in s.actions && Chosen(s, action, p, x) && job !in s.w.jobs
    ensures Inv(ApproveWith(s, action, user, p, x, job))
  {
    var v := ApproveWith(s, action, user, p, x, job);
    ApproveWithPersists(s, action, user, p, x, job);
    ApprovedBindingsOk(s, action, user, p, x, job);
    LogsStay(s, v);
    CreateKeepsPlans(s, v, job, x);
    ApprovedSendsOk(s, v, x, job);
  }

  lemma ApprovedBindingsOk(s: Store, action: nat, user: nat, p: nat, x: nat, job: nat)
    requires Inv(s) && action in s.actions && Chosen(s, action, p, x) && job !in s.w.jobs
    ensures BindingsOk(ApproveWith(s, action, user, p, x, job)) && OnePerAction(ApproveWith(s, action, user, p, x, job))
    ensures x in s.executions ==> KeyTaken(s.w.jobs, PublishKey(x))
  {
    var v := ApproveWith(s, action, user, p, x, job);
    ApproveWithPersists(s, action, user, p, x, job);
    ApprovedRowsOk(s, action, user, p, x, job);
    LinesStay(s, v);
    BindingsGrow(s, v);
  }

  lemma ApprovedSendsOk(s: Store, v: Store, x: nat, job: nat)
    requires AttemptsOk(s) && SendsOk(s) && Persists(s, v) && v.sent == s.sent && v.w.calls == s.w.calls
    requires job !in s.w.jobs
    requires forall y :: y in v.executions ==> y in s.executions || (y == x && v.executions[x].job == job)
    ensures SendsOk(v)
  {
    if x !in s.executions {
      NewExecutionUnsent(s, x, job);
    }
    forall i | 0 <= i < |v.sent|
      ensures SentOk(v, i)
    {
      RowsStayOk(s, v, i);
    }
  }

  lemma ApproveKeepsInv(s: Store, action: nat, user: nat, p: nat, x: nat, job: nat)
    requires Inv(s)
    ensures Inv(Approve(s, action, user, p, x, job))
  {
    if Approvable(s, action, user) && FreshIds(s, p, x, job) {
      var q, y := ApprovalOf(s, action, p), ExecutionOf(s, action, x);
      assert Chosen(s, action, q, y);
      ApproveWithKeepsInv(s, action, user, q, y, job);
    }
  }

  // ------------------------------------------------------------ the attempt

  lemma PreflightKeepsInv(s: Store, t: JR.Ticket)
    requires Inv(s)
    ensures Inv(Preflight(s, t))
  {
    var v := Preflight(s, t);
    if v != s {
      PreflightPersists(s, t);
      BindingsStay(s, v);
      LogsStay(s, v);
      SendsStay(s, v);
      NewPlanOk(s, t);
    }
  }

  lemma PlanIsSendable(s: Store, x: nat)
    requires x in s.executions && s.executions[x].action in s.actions
    ensures
      var g := PlanFor(s, x);
      g.Go? ==> g.execution == x && Sendable(s, x, g.action, g.text, g.chat)
  {}

  lemma NewPlanOk(s: Store, t: JR.Ticket)
    requires Inv(s) && Preflight(s, t) != s
    ensures AttemptsOk(Preflight(s, t))
  {
    var v := Preflight(s, t);
    var x := s.w.jobs[t.job].key.execution;
    PlanIsSendable(s, x);
    PreflightPersists(s, t);
    forall u | u in v.plans
      ensures PlanOk(v, u)
    {
      if u != t {
        assert PlanOk(s, u);
        PlanStays(s, v, u);
      }
    }
  }

  lemma SentSnoc(sent: seq<Sent>, m: Sent, x: nat)
    ensures SentCount(sent + [m], x) == SentCount(sent, x) + if m.execution == x then 1 else 0
  {
    assert (sent + [m])[..|sent|] == sent;
  }

  lemma CallSnoc(calls: seq<JR.Ticket>, t: JR.Ticket, j: nat)
    ensures JR.CallCount(calls + [t], j) == JR.CallCount(calls, j) + if t.job == j then 1 else 0
  {
    assert (calls + [t])[..|calls|] == calls;
  }

  lemma OneMoreSent(s: Store, v: Store, t: JR.Ticket, m: Sent)
    requires SendsOk(s) && Persists(s, v) && v.executions == s.executions
    requires v.sent == s.sent + [m] && v.w.calls == s.w.calls + [t] && SentOk(v, |s.sent|)
    requires forall x :: x in s.executions ==> (m.execution == x <==> t.job == s.executions[x].job)
    ensures SendsOk(v)
  {
    forall i | 0 <= i < |v.sent|
      ensures SentOk(v, i)
    {
      if i < |s.sent| { RowsStayOk(s, v, i); }
    }
    forall x | x in v.executions
      ensures SentCount(v.sent, x) == JR.CallCount(v.w.calls, v.executions[x].job)
    {
      SentSnoc(s.sent, m, x);
      CallSnoc(s.w.calls, t, v.executions[x].job);
    }
  }

  lemma TicketNamesExecution(s: Store, t: JR.Ticket)
    requires BindingsOk(s) && JobsKnown(s) && Executing(s, t)
    ensures forall x :: x in s.executions ==> (s.w.jobs[t.job].key.execution == x <==> t.job == s.executions[x].job)
  {
    var mine := s.w.jobs[t.job].key.execution;
    assert s.executions[mine].job == t.job;
    forall x | x in s.executions && s.executions[x].job == t.job
      ensures x == mine
    {
      assert ExecutionOk(s, x);
    }
  }

  lemma NewSentOk(s: Store, t: JR.Ticket)
    requires Inv(s) && MaySend(s, t)
    ensures SentOk(Send(s, t), |s.sent|)
  {
    assert PlanOk(s, t);
    TicketNamesExecution(s, t);
  }

  lemma SendKeepsSends(s: Store, t: JR.Ticket)
    requires Inv(s) && MaySend(s, t)
    ensures SendsOk(Send(s, t))
  {
    var v := Send(s, t);
    SendPersists(s, t);
    NewSentOk(s, t);
    TicketNamesExecution(s, t);
    assert PlanOk(s, t) && v.sent[|s.sent|].execution == s.w.jobs[t.job].key.execution;
    OneMoreSent(s, v, t, v.sent[|s.sent|]);
  }

  lemma CallKeepsWorld(w: JR.World, t: JR.Ticket)
    requires JR.Inv(w)
    ensures JR.Inv(JR.Call1(w, t)) && JR.Call1(w, t).jobs == w.jobs
    ensures forall u :: u in w.live && w.live[u].phase.Executing? ==>
      u in JR.Call1(w, t).live && JR.Call1(w, t).live[u].phase.Executing?
  {
    JR.StepKeepsInv(w, JR.Call(t));
    assert JR.Step(w, JR.Call(t)) == JR.Call1(w, t);
  }

  lemma CallKeepsAttempts(s: Store, t: JR.Ticket)
    requires Inv(s) && MaySend(s, t)
    ensures AttemptsOk(Send(s, t))
  {
    SendPersists(s, t);
    CallKeepsWorld(s.w, t);
    PlansStayExecuting(s, Send(s, t));
  }

  lemma PlansStayExecuting(s: Store, v: Store)
    requires AttemptsOk(s) && Persists(s, v) && v.plans == s.plans && v.executions == s.executions
      && v.w.jobs == s.w.jobs
    requires JR.Inv(v.w)
    requires forall u :: u in s.w.live && s.w.live[u].phase.Executing? ==> u in v.w.live && v.w.live[u].phase.Executing?
    ensures AttemptsOk(v)
  {
    assert forall t :: t in s.plans ==> PlanOk(s, t) && t in s.w.live && s.w.live[t].phase.Executing?;
    PlansStay(s, v);
  }

  lemma SendKeepsInv(s: Store, t: JR.Ticket)
    requires Inv(s)
    ensures Inv(Send(s, t))
  {
    if MaySend(s, t) {
      var v := Send(s, t);
      SendPersists(s, t);
      SendKeepsSends(s, t);
      CallKeepsAttempts(s, t);
      BindingsStay(s, v);
      LogsStay(s, v);
    }
  }

  lemma StatusesKeepInv(s: Store, x: nat, e: ExecutionStatus, a: Option<ActionStatus>)
    requires Inv(s) && x in s.executions && s.executions[x].action in s.actions
    ensures Inv(SetStatuses(s, x, e, a))
  {
    SetStatusesPersists(s, x, e, a);
    QuietKeepsInv(s, SetStatuses(s, x, e, a));
  }

  /** The row and the experiment's new status, before execution and action are updated. */
  function PublicationAdded(s: Store, q: Publication): Store {
    s.(publications := s.publications + [q], decisions := SetExperiment(s.decisions, q.decision, RUNNING))
  }

  lemma PublicationAddedPersists(s: Store, q: Publication)
    ensures Persists(s, PublicationAdded(s, q)) && (LinesOk(s) ==> LinesOk(PublicationAdded(s, q)))
  {}

  lemma LogsWithPublication(s: Store, q: Publication)
    requires OutcomesOk(s) && NoDuplicates(s) && !HasPublication(s, q.execution)
    requires PublicationOk(PublicationAdded(s, q), |s.publications|)
    ensures OutcomesOk(PublicationAdded(s, q)) && NoDuplicates(PublicationAdded(s, q))
  {
    PublicationAddedPersists(s, q);
    OutcomesGrow(s, PublicationAdded(s, q));
  }

  lemma PublicationKeepsInv(s: Store, q: Publication)
    requires Inv(s) && !HasPublication(s, q.execution)
    requires q.execution in s.executions && s.executions[q.execution].action == q.action && q.action in s.actions
    requires s.actions[q.action].decision == q.decision && s.actions[q.action].reviewsPass
    ensures Inv(PublicationAdded(s, q))
  {
    var v := PublicationAdded(s, q);
    PublicationAddedPersists(s, q);
    LogsWithPublication(s, q);
    PipelineStays(s, v);
  }

  lemma RecordPublicationKeepsInv(s: Store, x: nat)
    requires Inv(s) && x in s.executions && s.executions[x].action in s.actions
    requires !HasPublication(s, x) && s.actions[s.executions[x].action].reviewsPass
    ensures Inv(RecordPublication(s, x))
  {
    var action := s.executions[x].action;
    var q := Publication(x, action, s.actions[action].decision);
    PublicationKeepsInv(s, q);
    StatusesKeepInv(PublicationAdded(s, q), x, SUCCEEDED, Some(EXECUTED));
  }

  lemma RecordedKeepsInv(s: Store, x: nat, plan: Plan, o: Outcome)
    requires Inv(s) && x in s.executions && s.executions[x].action in s.actions
    requires plan.Go? ==> s.actions[s.executions[x].action].reviewsPass && (o.Published? ==> !HasPublication(s, x))
    ensures Inv(Recorded(s, x, plan, o))
  {
    match plan {
      case Skip =>
      case Halt => StatusesKeepInv(s, x, HALTED, Some(BLOCKED));
      case Confirm => StatusesKeepInv(s, x, SUCCEEDED, Some(EXECUTED));
      case Go(_, _, _, _) =>
        match o {
          case Published => RecordPublicationKeepsInv(s, x);
          case Ambiguous => StatusesKeepInv(s, x, UNKNOWN_EXTERNAL_OUTCOME, None);
          case Rejected => StatusesKeepInv(s, x, FAILED, Some(BLOCKED));
        }
    }
  }

  // ------------------------------------------------------------ the runtime

  /** The event neither creates a publish job nor calls out for one. */
  predicate NoPublishCall(s: Store, e: JR.Event) {
    && (e.Create? ==> !e.key.PublishKey?)
    && (e.Call? ==> e.ticket.job in s.w.jobs && !s.w.jobs[e.ticket.job].key.PublishKey?)
  }

  lemma WorldKeepsJobsKnown(s: Store, e: JR.Event)
    requires JobsKnown(s) && NoPublishCall(s, e)
    ensures JobsKnown(WithWorld(s, e))
  {
    var v := WithWorld(s, e);
    forall j | j in v.w.jobs && v.w.jobs[j].key.PublishKey?
      ensures v.w.jobs[j].key.execution in v.executions && v.executions[v.w.jobs[j].key.execution].job == j
    {
      if j in s.w.jobs {
        JR.RowsKeepKeys(s.w, e, j);
      } else {
        JR.NewJobIsCreated(s.w, e, j);
      }
    }
  }

  lemma OtherCallsCount(w: JR.World, e: JR.Event, j: nat)
    requires e.Call? ==> e.ticket.job != j
    ensures JR.CallCount(JR.Step(w, e).calls, j) == JR.CallCount(w.calls, j)
  {
    if e.Call? {
      CallSnoc(w.calls, e.ticket, j);
    }
  }

  lemma WorldKeepsCalls(s: Store, e: JR.Event)
    requires BindingsOk(s) && NoPublishCall(s, e)
    ensures forall x :: x in s.executions ==>
      JR.CallCount(WithWorld(s, e).w.calls, s.executions[x].job) == JR.CallCount(s.w.calls, s.executions[x].job)
  {
    forall x | x in s.executions
      ensures JR.CallCount(WithWorld(s, e).w.calls, s.executions[x].job) == JR.CallCount(s.w.calls, s.executions[x].job)
    {
      assert ExecutionOk(s, x);
      OtherCallsCount(s.w, e, s.executions[x].job);
    }
  }

  lemma WorldKeepsInv(s: Store, e: JR.Event)
    requires Inv(s) && NoPublishCall(s, e)
    ensures Inv(WithWorld(s, e))
  {
    var v := WithWorld(s, e);
    WorldPersists(s, e);
    JR.StepKeepsInv(s.w, e);
    WorldKeepsJobsKnown(s, e);
    WorldKeepsCalls(s, e);
    PlansStay(s, v);
    BindingsStay(s, v);
    LogsStay(s, v);
    SendsStay(s, v);
  }

  lemma FinishKeepsInv(s: Store, t: JR.Ticket, o: Outcome)
    requires Inv(s)
    ensures Inv(Finish(s, t, o))
  {
    if MayFinish(s, t, o) {
      assert PlanOk(s, t);
      var x := s.w.jobs[t.job].key.execution;
      RecordedKeepsInv(s, x, s.plans[t], o);
      WorldKeepsInv(Recorded(s, x, s.plans[t], o), JR.Commit(t));
    }
  }

  // ------------------------------------------------------------ learning

  lemma MeasureKeepsInv(s: Store, id: nat, publication: nat, reading: C.Reading)
    requires Inv(s)
    ensures Inv(Measure(s, id, publication, reading))
  {
    var v := Measure(s, id, publication, reading);
    if v != s {
      MeasurePersists(s, id, publication, reading);
      assert MetricOk(v, id);
      OutcomesGrow(s, v);
      PipelineStays(s, v);
    }
  }

  lemma ReadingFits(s: Store, metric: nat)
    requires OutcomesOk(s) && MayInterpret(s, metric)
    ensures ResultFits(s, ResultFor(s, metric))
  {
    assert MetricOk(s, metric);
  }

  lemma NewPendingKeepsInv(s: Store, pending: map<nat, ExperimentResult>)
    requires Inv(s)
    requires forall r :: r in pending ==> (r in s.pending && pending[r] == s.pending[r]) || ResultFits(s, pending[r])
    ensures Inv(s.(pending := pending))
  {
    var v := s.(pending := pending);
    PendingDoesNotMatter(s, pending);
    OutcomesGrow(s, v);
    PipelineStays(s, v);
  }

  lemma ReadKeepsInv(s: Store, reader: nat, metric: nat)
    requires Inv(s)
    ensures Inv(ReadCheckpoint(s, reader, metric))
  {
    if reader !in s.pending && MayInterpret(s, metric) {
      ReadingFits(s, metric);
      NewPendingKeepsInv(s, s.pending[reader := ResultFor(s, metric)]);
    }
  }

  lemma CommitKeepsLines(s: Store, reader: nat)
    requires LinesOk(s) && NoDuplicates(s) && MayCommitResult(s, reader)
    ensures
      var v := CommitResult(s, reader);
      LinesOk(v) && NoDuplicates(v) && SameRows(s, v)
  {}

  lemma CommitKeepsOutcomes(s: Store, reader: nat)
    requires OutcomesOk(s) && MayCommitResult(s, reader)
    ensures OutcomesOk(CommitResult(s, reader))
  {
    var v := CommitResult(s, reader);
    CommitResultPersists(s, reader);
    FitStays(s, v, s.pending[reader]);
    assert ResultOk(v, |s.results|);
    OutcomesGrow(s, v);
  }

  lemma CommitResultKeepsInv(s: Store, reader: nat)
    requires Inv(s)
    ensures Inv(CommitResult(s, reader))
  {
    if MayCommitResult(s, reader) {
      CommitResultPersists(s, reader);
      CommitKeepsLines(s, reader);
      CommitKeepsOutcomes(s, reader);
      PipelineStays(s, CommitResult(s, reader));
    } else {
      NewPendingKeepsInv(s, s.pending - {reader});
    }
  }

  lemma LearnKeepsInv(s: Store, result: nat)
    requires Inv(s)
    ensures Inv(Learn(s, result))
  {
    var v := Learn(s, result);
    if v != s {
      LearnPersists(s, result);
      assert LearningOk(v, |s.learnings|);
      OutcomesGrow(s, v);
      PipelineStays(s, v);
    }
  }

  // ------------------------------------------------------------ every run

  lemma ProduceKeepsLines(s: Store, wf: nat, e: PW.Event)
    requires LinesOk(s)
    ensures LinesOk(ProduceStep(s, wf, e))
  {
    if wf in s.lines {
      PW.StepKeepsInv(s.lines[wf].flow, e);
      PO.StepKeepsGrounded(s.lines[wf].flow, e);
    }
  }

  lemma ProduceKeepsInv(s: Store, wf: nat, e: PW.Event)
    requires Inv(s)
    ensures Inv(ProduceStep(s, wf, e))
  {
    ProducePersists(s, wf, e);
    ProduceKeepsLines(s, wf, e);
    QuietKeepsInv(s, ProduceStep(s, wf, e));
  }

  lemma StartKeepsLines(s: Store, d: nat, experiment: Option<bool>, wf: nat, maxRounds: nat, evidence: set<nat>)
    requires LinesOk(s)
    ensures LinesOk(AddDecision(s, d, experiment)) && LinesOk(AddLine(s, wf, d, maxRounds, evidence))
  {
    PW.EveryRunKeepsInv(maxRounds, evidence, []);
    PO.EveryRunGrounded(maxRounds, evidence, []);
  }

  lemma AddDecisionKeepsInv(s: Store, d: nat, experiment: Option<bool>)
    requires Inv(s)
    ensures Inv(AddDecision(s, d, experiment))
  {
    var v := AddDecision(s, d, experiment);
    if v != s {
      DecisionAdded(s, d, v.decisions[d]);
      StartKeepsLines(s, d, experiment, 0, 0, {});
      QuietKeepsInv(s, v);
    }
  }

  lemma AddLineKeepsInv(s: Store, wf: nat, d: nat, maxRounds: nat, evidence: set<nat>)
    requires Inv(s)
    ensures Inv(AddLine(s, wf, d, maxRounds, evidence))
  {
    var v := AddLine(s, wf, d, maxRounds, evidence);
    if v != s {
      LineAdded(s, wf, v.lines[wf]);
      StartKeepsLines(s, d, None, wf, maxRounds, evidence);
      QuietKeepsInv(s, v);
    }
  }

  lemma NewCheckpointKeepsInv(s: Store, d: nat, spec: C.Spec)
    requires Inv(s) && d !in s.checkpoints
    ensures Inv(s.(checkpoints := s.checkpoints[d := spec]))
  {
    var v := s.(checkpoints := s.checkpoints[d := spec]);
    CheckpointAdded(s, d, spec);
    LinesStay(s, v);
    QuietKeepsInv(s, v);
  }

  lemma CheckpointKeepsInv(s: Store, d: nat, spec: C.Spec)
    requires Inv(s)
    ensures Inv(CheckpointStep(s, d, spec))
  {
    if DefineCheckpoint(s, d, spec).Ok? && d !in s.checkpoints {
      NewCheckpointKeepsInv(s, d, spec);
    }
  }

  lemma NewSettingsKeepInv(s: Store, accounts: map<nat, Account>, controls: Controls, owners: set<nat>)
    requires Inv(s) && forall i :: i in s.accounts ==> i in accounts
    ensures Inv(s.(accounts := accounts, controls := controls, owners := owners))
  {
    var v := s.(accounts := accounts, controls := controls, owners := owners);
    NothingLost(s, v);
    LinesStay(s, v);
    QuietKeepsInv(s, v);
  }

  lemma SettingsKeepInv(s: Store, e: Event)
    requires Inv(s)
    ensures Inv(ChangeSettings(s, e))
  {
    var v := ChangeSettings(s, e);
    NewSettingsKeepInv(s, v.accounts, v.controls, v.owners);
  }

  predicate Setup(e: Event) {
    || e.NewDecision? || e.StartProduction? || e.Checkpoint? || e.Register? || e.SetControls? || e.SetOwner?
       || e.Produce?
    || e.ProposeAction?
  }

  lemma SetupKeepsInv(s: Store, e: Event)
    requires Inv(s) && Setup(e)
    ensures Inv(Step(s, e))
  {
    if e.NewDecision? {
      AddDecisionKeepsInv(s, e.decision, e.experiment);
    } else if e.StartProduction? {
      AddLineKeepsInv(s, e.line, e.decision, e.maxRounds, e.evidence);
    } else if e.Checkpoint? {
      CheckpointKeepsInv(s, e.decision, e.spec);
    } else if e.Produce? {
      ProduceKeepsInv(s, e.line, e.step);
    } else if e.ProposeAction? {
      ProposeKeepsInv(s, e.action, e.line, e.account, e.hasSecret, e.rightsOk);
    } else {
      SettingsKeepInv(s, e);
    }
  }

  /** One step of anyone keeps every binding, count and contract. */
  lemma StepKeepsInv(s: Store, e: Event)
    requires Inv(s)
    ensures Inv(Step(s, e))
  {
    if Setup(e) {
      SetupKeepsInv(s, e);
    } else if e.ApproveAction? {
      ApproveKeepsInv(s, e.action, e.user, e.approval, e.execution, e.job);
    } else if e.PreflightOf? {
      PreflightKeepsInv(s, e.ticket);
    } else if e.SendOf? {
      SendKeepsInv(s, e.ticket);
    } else if e.FinishOf? {
      FinishKeepsInv(s, e.ticket, e.outcome);
    } else if e.MeasureMetric? {
      MeasureKeepsInv(s, e.metric, e.publication, e.reading);
    } else if e.ReadMetric? {
      ReadKeepsInv(s, e.reader, e.metric);
    } else if e.CommitMetric? {
      CommitResultKeepsInv(s, e.reader);
    } else if e.DropMetric? {
      NewPendingKeepsInv(s, s.pending - {e.reader});
    } else if e.LearnFrom? {
      LearnKeepsInv(s, e.result);
    } else if Foreign(s, e.event) {
      WorldKeepsInv(s, e.event);
    }
  }

  lemma {:induction false} EveryRunKeepsInv(es: seq<Event>)
    ensures Inv(Run(INIT, es))
  {
    if |es| > 0 {
      EveryRunKeepsInv(es[..|es| - 1]);
      StepKeepsInv(Run(INIT, es[..|es| - 1]), es[|es| - 1]);
    }
  }
}
