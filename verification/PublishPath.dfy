/**
 The governed path does publish: from any store that satisfies the invariant and has a READY
 workflow and nothing in the way, proposing, approving and one undisturbed attempt send the
 final version once and record it.
 */
module PublishPath {
  import opened Basics
  import opened Jobs
  import opened Publishing
  import opened Provenance
  import opened Outcomes
  import JR = JobRuns

  /** New ids and the people and machines involved. */
  datatype Plot = Plot(action: nat, approval: nat, execution: nat, job: nat, user: nat, worker: nat, lease: int)

  predicate Ready(s: Store, wf: nat, version: nat, account: nat, m: Plot) {
    && account in s.accounts && m.user in s.owners && Open(s.controls)
    && ReviewsPass(s, wf, version, s.accounts[account], true)
    && m.action !in s.actions && FreshIds(s, m.approval, m.execution, m.job)
    && (forall a :: a in s.actions ==>
          !SameKey(s.actions[a], wf, version, account, s.accounts[account].chat, Body(s, wf, version)))
  }

  function NewAction(s: Store, wf: nat, version: nat, account: nat): Action
    requires IsFinal(s, wf, version) && account in s.accounts
  {
    Action(APPROVAL_REQUIRED, wf, version, s.lines[wf].decision, account, s.accounts[account].chat,
           Body(s, wf, version), true, true)
  }

  function Proposed1(s: Store, wf: nat, version: nat, account: nat, m: Plot): Store
    requires IsFinal(s, wf, version) && account in s.accounts
  {
    s.(actions := s.actions[m.action := NewAction(s, wf, version, account)])
  }

  lemma ProposalIsMade(s: Store, wf: nat, version: nat, account: nat, m: Plot)
    requires Ready(s, wf, version, account, m)
    ensures Propose(s, m.action, wf, account, false, true) == Ok(Proposed1(s, wf, version, account, m))
  {}

  /** Nobody refers to an action that is not there yet. */
  lemma NothingForNewAction(s: Store, action: nat)
    requires BindingsOk(s) && action !in s.actions
    ensures forall p :: p in s.approvals ==> s.approvals[p].action != action
    ensures forall x :: x in s.executions ==> s.executions[x].action != action
  {
    forall p | p in s.approvals
      ensures s.approvals[p].action != action
    {
      assert ApprovalOk(s, p);
    }
    forall x | x in s.executions
      ensures s.executions[x].action != action
    {
      assert ExecutionOk(s, x);
    }
  }

  function Approved1(s: Store, wf: nat, version: nat, account: nat, m: Plot): Store
    requires IsFinal(s, wf, version) && account in s.accounts
  {
    ApproveWith(Proposed1(s, wf, version, account, m), m.action, m.user, m.approval, m.execution, m.job)
  }

  lemma ApprovalIsGiven(s: Store, wf: nat, version: nat, account: nat, m: Plot)
    requires BindingsOk(s) && Ready(s, wf, version, account, m)
    ensures Approve(Proposed1(s, wf, version, account, m), m.action, m.user, m.approval, m.execution, m.job)
            == Approved1(s, wf, version, account, m)
  {
    NothingForNewAction(s, m.action);
    var q := Proposed1(s, wf, version, account, m);
    assert Approvable(q, m.action, m.user);
    assert ApprovalOf(q, m.action, m.approval) == m.approval;
    assert ExecutionOf(q, m.action, m.execution) == m.execution;
  }

  /** After the approval the preflight finds nothing against sending. */
  lemma NothingBlocks(s: Store, wf: nat, version: nat, account: nat, m: Plot)
    requires Ready(s, wf, version, account, m)
    ensures MayPublish(Approved1(s, wf, version, account, m), m.execution)
  {}

  lemma NotPublishedYet(s: Store, x: nat)
    requires OutcomesOk(s) && x !in s.executions
    ensures !HasPublication(s, x)
  {
    forall i | 0 <= i < |s.publications|
      ensures s.publications[i].execution != x
    {
      assert PublicationOk(s, i);
    }
  }

  lemma PlanIsGo(s: Store, wf: nat, version: nat, account: nat, m: Plot)
    requires OutcomesOk(s) && Ready(s, wf, version, account, m)
    ensures
      var v := Approved1(s, wf, version, account, m);
      && m.execution in v.executions && v.executions[m.execution].action in v.actions
      && PlanFor(v, m.execution) == Go(m.execution, m.action, Body(s, wf, version), s.accounts[account].chat)
  {
    NothingBlocks(s, wf, version, account, m);
    NotPublishedYet(s, m.execution);
    assert HasPublication(Approved1(s, wf, version, account, m), m.execution) == HasPublication(s, m.execution);
  }

  // ------------------------------------------------------------ the attempt

  lemma ClaimAndBeginNew(w: JR.World, u: JR.Ticket, worker: nat, lease: int, key: Key)
    requires u !in w.live && u.job in w.jobs && u.number == 1 && w.jobs[u.job] == NewRow(key, 1, w.now)
    ensures
      var v := JR.Step(JR.Step(w, JR.Claim(u.job, worker, lease)), JR.Begin(u));
      && u.job in v.jobs && v.jobs[u.job].key == key && u in v.live && v.live[u].phase == JR.Executing(false)
  {}

  function Sent1(s: Store, u: JR.Ticket, worker: nat, lease: int): Store {
    Send(Preflight(Begun(s, u, worker, lease), u), u)
  }

  /** Claim, begin, preflight, send and commit of a fresh publish job. */
  lemma AttemptPublishes(s: Store, u: JR.Ticket, worker: nat, lease: int, x: nat)
    requires x in s.executions && s.executions[x].action in s.actions && PlanFor(s, x).Go?
    requires u !in s.w.live && u !in s.plans && u.job in s.w.jobs && u.number == 1
    requires s.w.jobs[u.job] == NewRow(PublishKey(x), 1, s.w.now)
    ensures
      var v, g := Sent1(s, u, worker, lease), PlanFor(s, x);
      && v.sent == s.sent + [Sent(u, x, g.action, g.text, g.chat)]
      && v.publications == s.publications && v.executions == s.executions && v.actions == s.actions
      && v.decisions == s.decisions
      && MayFinish(v, u, Published) && v.w.jobs[u.job].key.execution == x && v.plans[u] == g
  {
    ClaimAndBeginNew(s.w, u, worker, lease, PublishKey(x));
    TakenOver(s, u, worker, lease);
    SendBegun(s, Begun(s, u, worker, lease), u, x);
  }

  lemma SendBegun(s: Store, begun: Store, u: JR.Ticket, x: nat)
    requires begun == s.(w := begun.w, plans := begun.plans)
    requires x in s.executions && s.executions[x].action in s.actions && PlanFor(s, x).Go?
    requires Executing(begun, u) && begun.w.jobs[u.job].key.execution == x
    requires begun.w.live[u].phase == JR.Executing(false) && u !in begun.plans
    ensures
      var v, g := Send(Preflight(begun, u), u), PlanFor(s, x);
      && v.sent == s.sent + [Sent(u, x, g.action, g.text, g.chat)]
      && v.publications == s.publications && v.executions == s.executions && v.actions == s.actions
      && v.decisions == s.decisions
      && MayFinish(v, u, Published) && v.w.jobs[u.job].key.execution == x && u in v.plans && v.plans[u] == g
  {
    PlanIgnoresWorld(s, begun, x);
    SendAfterBegin(begun, u, x);
  }

  lemma PublicationRecorded(s: Store, u: JR.Ticket, x: nat)
    requires MayFinish(s, u, Published) && s.w.jobs[u.job].key.execution == x && s.plans[u].Go?
    ensures
      var v, action := Finish(s, u, Published), s.executions[x].action;
      && v.sent == s.sent
      && v.publications == s.publications + [Publication(x, action, s.actions[action].decision)]
      && x in v.executions && v.executions[x].status.SUCCEEDED?
      && action in v.actions && v.actions[action].status.EXECUTED?
      && v.decisions == SetExperiment(s.decisions, s.actions[action].decision, RUNNING)
  {
    WithWorldFrame(RecordPublication(s, x), JR.Commit(u));
  }

  function PublishedBy(s: Store, wf: nat, version: nat, account: nat, m: Plot): Store
    requires IsFinal(s, wf, version) && account in s.accounts
  {
    var u := JR.Ticket(m.job, 1);
    Finish(Sent1(Approved1(s, wf, version, account, m), u, m.worker, m.lease), u, Published)
  }

  lemma NewJobIsFresh(s: Store, wf: nat, version: nat, account: nat, m: Plot)
    requires BindingsOk(s) && AttemptsOk(s) && Ready(s, wf, version, account, m)
    ensures
      var v, u := Approved1(s, wf, version, account, m), JR.Ticket(m.job, 1);
      && u !in v.w.live && u !in v.plans && m.job in v.w.jobs
      && v.w.jobs[m.job] == NewRow(PublishKey(m.execution), 1, v.w.now)
  {
    KeyFollowsExecution(s, m.execution);
    var u := JR.Ticket(m.job, 1);
    assert !JR.TicketIssued(s.w, u);
    assert u in s.plans ==> PlanOk(s, u);
  }

  /** Propose and approve. */
  function Ask(wf: nat, account: nat, m: Plot): seq<Event> {
    [ProposeAction(m.action, wf, account, false, true), ApproveAction(m.action, m.user, m.approval, m.execution, m.job)]
  }

  /** Claim, begin, preflight and send. */
  function Attempt(m: Plot): seq<Event> {
    var u := JR.Ticket(m.job, 1);
    [Runtime(JR.Claim(m.job, m.worker, m.lease)), Runtime(JR.Begin(u)), PreflightOf(u), SendOf(u)]
  }

  /** The path as events of a run. */
  function Path(wf: nat, account: nat, m: Plot): seq<Event> {
    Ask(wf, account, m) + Attempt(m) + [FinishOf(JR.Ticket(m.job, 1), Published)]
  }

  lemma {:induction false} RunConcat(s: Store, a: seq<Event>, b: seq<Event>)
    ensures Run(s, a + b) == Run(Run(s, a), b)
  {
    if |b| == 0 {
      assert a + b == a;
    } else {
      var front := b[..|b| - 1];
      assert (a + b)[..|a + b| - 1] == a + front;
      RunConcat(s, a, front);
    }
  }

  lemma RunOne(s: Store, e: Event)
    ensures Run(s, [e]) == Step(s, e)
  {
    assert [e][..0] == [];
  }

  lemma RunTwo(s: Store, a: Event, b: Event, one: Store, two: Store)
    requires Step(s, a) == one && Step(one, b) == two
    ensures Run(s, [a, b]) == two
  {
    assert [a] + [b] == [a, b];
    RunConcat(s, [a], [b]);
    RunOne(s, a);
    RunOne(one, b);
  }

  lemma ProposeStepIs(s: Store, wf: nat, version: nat, account: nat, m: Plot)
    requires Ready(s, wf, version, account, m)
    ensures Step(s, ProposeAction(m.action, wf, account, false, true)) == Proposed1(s, wf, version, account, m)
  {
    ProposalIsMade(s, wf, version, account, m);
  }

  lemma ApproveStepIs(s: Store, wf: nat, version: nat, account: nat, m: Plot)
    requires BindingsOk(s) && Ready(s, wf, version, account, m)
    ensures Step(Proposed1(s, wf, version, account, m), ApproveAction(m.action, m.user, m.approval, m.execution, m.job))
            == Approved1(s, wf, version, account, m)
  {
    ApprovalIsGiven(s, wf, version, account, m);
    ApproveIsAStep(Proposed1(s, wf, version, account, m), m.action, m.user, m.approval, m.execution, m.job);
  }

  lemma ApproveIsAStep(s: Store, action: nat, user: nat, p: nat, x: nat, job: nat)
    ensures Step(s, ApproveAction(action, user, p, x, job)) == Approve(s, action, user, p, x, job)
  {}

  lemma AskIsARun(s: Store, wf: nat, version: nat, account: nat, m: Plot)
    requires BindingsOk(s) && Ready(s, wf, version, account, m)
    ensures Run(s, Ask(wf, account, m)) == Approved1(s, wf, version, account, m)
  {
    ProposeStepIs(s, wf, version, account, m);
    ApproveStepIs(s, wf, version, account, m);
    var es := Ask(wf, account, m);
    RunTwo(s, es[0], es[1], Proposed1(s, wf, version, account, m), Approved1(s, wf, version, account, m));
    assert es == [es[0], es[1]];
  }

  lemma ClaimOrBeginIsForeign(s: Store, e: JR.Event)
    requires e.Claim? || e.Begin?
    ensures Step(s, Runtime(e)) == WithWorld(s, e)
  {}

  lemma AttemptSteps(s: Store, u: JR.Ticket)
    ensures Step(s, PreflightOf(u)) == Preflight(s, u) && Step(s, SendOf(u)) == Send(s, u)
    ensures Step(s, FinishOf(u, Published)) == Finish(s, u, Published)
  {}

  lemma BeginIsARun(s: Store, m: Plot)
    ensures Run(s, Attempt(m)[..2]) == Begun(s, JR.Ticket(m.job, 1), m.worker, m.lease)
  {
    var es, u := Attempt(m), JR.Ticket(m.job, 1);
    var claimed := WithWorld(s, JR.Claim(m.job, m.worker, m.lease));
    ClaimOrBeginIsForeign(s, JR.Claim(m.job, m.worker, m.lease));
    ClaimOrBeginIsForeign(claimed, JR.Begin(u));
    RunTwo(s, es[0], es[1], claimed, WithWorld(claimed, JR.Begin(u)));
    assert es[..2] == [es[0], es[1]];
  }

  lemma AttemptIsARun(s: Store, m: Plot)
    ensures Run(s, Attempt(m)) == Sent1(s, JR.Ticket(m.job, 1), m.worker, m.lease)
  {
    var es, u := Attempt(m), JR.Ticket(m.job, 1);
    var begun := Begun(s, u, m.worker, m.lease);
    BeginIsARun(s, m);
    RunConcat(s, es[..2], [es[2], es[3]]);
    AttemptSteps(begun, u);
    AttemptSteps(Preflight(begun, u), u);
    RunTwo(begun, es[2], es[3], Preflight(begun, u), Send(Preflight(begun, u), u));
    assert es == es[..2] + [es[2], es[3]];
  }

  lemma PathIsARun(s: Store, wf: nat, version: nat, account: nat, m: Plot)
    requires BindingsOk(s) && Ready(s, wf, version, account, m)
    ensures Run(s, Path(wf, account, m)) == PublishedBy(s, wf, version, account, m)
  {
    var u, q := JR.Ticket(m.job, 1), Approved1(s, wf, version, account, m);
    var sent := Sent1(q, u, m.worker, m.lease);
    AskIsARun(s, wf, version, account, m);
    AttemptIsARun(q, m);
    RunConcat(s, Ask(wf, account, m), Attempt(m));
    RunConcat(s, Ask(wf, account, m) + Attempt(m), [FinishOf(u, Published)]);
    RunOne(sent, FinishOf(u, Published));
    AttemptSteps(sent, u);
  }

  /** Checkpoints, metrics, results and learnings are those of before. */
  predicate SameLearning(s: Store, v: Store) {
    && v.checkpoints == s.checkpoints && v.metrics == s.metrics && v.pending == s.pending && v.results == s.results
    && v.learnings == s.learnings
  }

  lemma PathLearnsNothing(s: Store, wf: nat, version: nat, account: nat, m: Plot)
    requires IsFinal(s, wf, version) && account in s.accounts
    ensures SameLearning(s, PublishedBy(s, wf, version, account, m))
  {
    var q, u := Approved1(s, wf, version, account, m), JR.Ticket(m.job, 1);
    assert SameLearning(s, q);
    assert SameLearning(q, Sent1(q, u, m.worker, m.lease));
  }

  /** The whole path, run as seven events, sends the body of the final version exactly once to the
      account's chat, and records one publication, the execution as SUCCEEDED, the action as
      EXECUTED and the experiment, if there is one, as RUNNING. */
  lemma GovernedPathPublishes(s: Store, wf: nat, version: nat, account: nat, m: Plot)
    requires Inv(s) && Ready(s, wf, version, account, m)
    ensures
      var v, d := Run(s, Path(wf, account, m)), s.lines[wf].decision;
      && v.sent == s.sent + [Sent(JR.Ticket(m.job, 1), m.execution, m.action, Body(s, wf, version),
         s.accounts[account].chat)]
      && v.publications == s.publications + [Publication(m.execution, m.action, d)]
      && m.execution in v.executions && v.executions[m.execution].status.SUCCEEDED?
      && m.action in v.actions && v.actions[m.action].status.EXECUTED?
      && v.decisions == SetExperiment(s.decisions, d, RUNNING) && SameLearning(s, v)
  {
    var q, u := Approved1(s, wf, version, account, m), JR.Ticket(m.job, 1);
    PathIsARun(s, wf, version, account, m);
    PathLearnsNothing(s, wf, version, account, m);
    PlanIsGo(s, wf, version, account, m);
    NewJobIsFresh(s, wf, version, account, m);
    AttemptPublishes(q, u, m.worker, m.lease, m.execution);
    PublicationRecorded(Sent1(q, u, m.worker, m.lease), u, m.execution);
  }
}
