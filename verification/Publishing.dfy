/**
 From a governed decision to its published message and what is learned from it
 (execution/service.py, execution/governance.py, application/phase6.py, analytics/phase6.py).

 The store sits on the job runtime: a publish attempt is an attempt of the job whose key is
 PublishKey(execution), and sending the message is that attempt's outside call.  Inside the
 attempt the model separates reading the bindings (Preflight), sending (Send) and committing
 the outcome (Finish), because other transactions commit in between: the attempt's flush before
 sending holds its own execution row, not the experiment or the action's bindings.
 Interpreting a metric is separated into its reads and its commit for the same reason.
 All other operations are one short transaction, hence one step.

 Ids passed to an operation stand for new_id.  Digests are the payloads themselves.
 */
module Publishing {
  import opened Basics
  import opened Jobs
  import JR = JobRuns
  import PW = ProductionWorkflow
  import PO = ProductionOutputs
  import C = Checkpoints

  datatype ExperimentStatus = DRAFT | RUNNING | COMPLETE

  /** metricOk: the experiment and its rule measure telegram_reaction_changes. */
  datatype Experiment = Experiment(status: ExperimentStatus, metricOk: bool)

  datatype Decision = Decision(experiment: Option<Experiment>)

  /** A production workflow with the decision it serves. */
  datatype Line = Line(decision: nat, flow: PW.Workflow)

  /** ready: status READY, auth healthy and write capability; canPost: the posting capability. */
  datatype Account = Account(ready: bool, canPost: bool, chat: nat)

  datatype Controls = Controls(automationPaused: bool, executionPaused: bool, writesRevoked: bool)

  datatype ActionStatus = APPROVAL_REQUIRED | APPROVED | BLOCKED | EXECUTED

  /** An action with its proposal detail, its stored reviews and its permission evaluation. */
  datatype Action = Action(
    status: ActionStatus, workflow: nat, version: nat, decision: nat, account: nat, chat: nat, text: string,
    reviewsPass: bool, permitted: bool)

  datatype Approval = Approval(action: nat, workflow: nat, version: nat, user: nat)

  /** HALTED is the status BLOCKED of an execution; RUNNING is never committed. */
  datatype ExecutionStatus = PENDING | SUCCEEDED | FAILED | HALTED | UNKNOWN_EXTERNAL_OUTCOME

  /** job: the publish job created together with the execution. */
  datatype Execution = Execution(action: nat, approval: nat, status: ExecutionStatus, job: nat)

  /** What an attempt does after its preflight. */
  datatype Plan =
    | Skip
    | Halt
    | Confirm
    | Go(execution: nat, action: nat, text: string, chat: nat)

  datatype Sent = Sent(ticket: JR.Ticket, execution: nat, action: nat, text: string, chat: nat)

  datatype Publication = Publication(execution: nat, action: nat, decision: nat)

  datatype Metric = Metric(publication: nat, decision: nat, contract: C.Spec, reading: C.Reading)

  datatype ExperimentResult = ExperimentResult(metric: nat, decision: nat, class_: C.ResultClass)

  datatype Learning = Learning(result: nat, decision: nat)

  datatype Store = Store(
    w: JR.World,
    decisions: map<nat, Decision>,
    checkpoints: map<nat, C.Spec>,
    lines: map<nat, Line>,
    accounts: map<nat, Account>,
    controls: Controls,
    owners: set<nat>,
    actions: map<nat, Action>,
    approvals: map<nat, Approval>,
    executions: map<nat, Execution>,
    plans: map<JR.Ticket, Plan>,
    sent: seq<Sent>,
    publications: seq<Publication>,
    metrics: map<nat, Metric>,
    pending: map<nat, ExperimentResult>,
    results: seq<ExperimentResult>,
    learnings: seq<Learning>)

  const INIT := Store(
    JR.INIT, map[], map[], map[], map[], Controls(false, false, false), {}, map[], map[], map[], map[], [], [],
    map[], map[], [], [])

  // ------------------------------------------------------------ checkpoints and proposals

  predicate Proposed(actions: map<nat, Action>, d: nat) {
    exists a :: a in actions && actions[a].decision == d
  }

  function DefineCheckpoint(s: Store, d: nat, spec: C.Spec): (r: Result<Store>)
    ensures r.Ok? ==> r.value == s.(checkpoints := r.value.checkpoints)
  {
    if d !in s.decisions || s.decisions[d].experiment.None? then Err(NotFound)
    else if !s.decisions[d].experiment.value.metricOk then Err(NotEligible)
    else if d in s.checkpoints then (if s.checkpoints[d] == spec then Ok(s) else Err(ImmutableContract))
    else if Proposed(s.actions, d) then Err(ImmutableContract)
    else Ok(s.(checkpoints := s.checkpoints[d := spec]))
  }

  predicate Open(c: Controls) { !c.automationPaused && !c.executionPaused && !c.writesRevoked }

  predicate IsFinal(s: Store, wf: nat, version: nat) {
    && wf in s.lines && s.lines[wf].flow.status.ReadyForActionProposal?
    && s.lines[wf].flow.finalVersion == Some(version) && 1 <= version <= |s.lines[wf].flow.versions|
  }

  function Body(s: Store, wf: nat, version: nat): string
    requires IsFinal(s, wf, version)
  {
    s.lines[wf].flow.versions[version - 1].draft.body
  }

  /** A governed experiment must be in DRAFT with its checkpoint registered. */
  predicate ExperimentReady(s: Store, d: nat) {
    d in s.decisions && s.decisions[d].experiment.Some? ==>
      && s.decisions[d].experiment.value.status.DRAFT?
      && d in s.checkpoints && s.decisions[d].experiment.value.metricOk
  }

  /** The five execution controllers; the rights facts come in as one boolean. */
  predicate ReviewsPass(s: Store, wf: nat, version: nat, account: Account, rightsOk: bool) {
    && rightsOk
    && IsFinal(s, wf, version) && 1 <= |Body(s, wf, version)| <= 4096
    && account.ready && account.canPost
    && ExperimentReady(s, s.lines[wf].decision)
  }

  predicate SameKey(a: Action, wf: nat, version: nat, account: nat, chat: nat, text: string) {
    a.workflow == wf && a.version == version && a.account == account && a.chat == chat && a.text == text
  }

  /** create_action_proposal; an equal idempotency key returns the action there is. */
  function Propose(s: Store, id: nat, wf: nat, account: nat, hasSecret: bool, rightsOk: bool): (r: Result<Store>)
    ensures r.Ok? ==> r.value == s.(actions := r.value.actions)
  {
    if wf !in s.lines || id in s.actions then Err(NotFound)
    else
      var flow := s.lines[wf].flow;
      if !flow.status.ReadyForActionProposal? || flow.finalVersion.None? then Err(NotReady)
      else if !IsFinal(s, wf, flow.finalVersion.value) || account !in s.accounts then Err(NotFound)
      else
        var version, chat := flow.finalVersion.value, s.accounts[account].chat;
        var text := Body(s, wf, version);
        if hasSecret then Err(SecretRejected)
        else if exists a :: a in s.actions && SameKey(s.actions[a], wf, version, account, chat, text) then Ok(s)
        else
          var pass := ReviewsPass(s, wf, version, s.accounts[account], rightsOk);
          var permitted := Open(s.controls) && pass;
          Ok(s.(actions := s.actions[id := Action(if permitted then APPROVAL_REQUIRED else BLOCKED, wf, version,
                                                  s.lines[wf].decision, account, chat, text, pass, permitted)]))
  }

  // ------------------------------------------------------------ approval

  /** _assert_current_action_binding */
  predicate BindingHolds(s: Store, a: Action) {
    IsFinal(s, a.workflow, a.version) && a.text == Body(s, a.workflow, a.version)
  }

  ghost function ApprovalOf(s: Store, action: nat, orElse: nat): nat {
    if p :| p in s.approvals && s.approvals[p].action == action then p else orElse
  }

  ghost function ExecutionOf(s: Store, action: nat, orElse: nat): nat {
    if x :| x in s.executions && s.executions[x].action == action then x else orElse
  }

  predicate Approvable(s: Store, action: nat, user: nat) {
    && action in s.actions && user in s.owners
    && (s.actions[action].status.APPROVAL_REQUIRED? || s.actions[action].status.APPROVED?)
    && s.actions[action].permitted && BindingHolds(s, s.actions[action])
  }

  /** The rows written for approval p and execution x, reusing what exists. */
  function ApproveWith(s: Store, action: nat, user: nat, p: nat, x: nat, jobId: nat): Store
    requires action in s.actions
  {
    var a := s.actions[action];
    s.(actions := s.actions[action := a.(status := APPROVED)],
       approvals := if p in s.approvals then s.approvals
                    else s.approvals[p := Approval(action, a.workflow, a.version, user)],
       executions := if x in s.executions then s.executions
                     else s.executions[x := Execution(action, p, PENDING, jobId)],
       w := JR.Create1(s.w, jobId, PublishKey(x), 1, s.w.now))
  }

  /** New ids are new. */
  predicate FreshIds(s: Store, p: nat, x: nat, job: nat) {
    p !in s.approvals && x !in s.executions && job !in s.w.jobs
  }

  /** approve_action_proposal */
  ghost function Approve(s: Store, action: nat, user: nat, p: nat, x: nat, job: nat): (v: Store)
    ensures v == s.(actions := v.actions, approvals := v.approvals, executions := v.executions, w := v.w)
  {
    if !Approvable(s, action, user) || !FreshIds(s, p, x, job) then s
    else ApproveWith(s, action, user, ApprovalOf(s, action, p), ExecutionOf(s, action, x), job)
  }

  // ------------------------------------------------------------ the publish attempt

  /** The attempt is inside its transaction and belongs to a known execution. */
  predicate Executing(s: Store, t: JR.Ticket) {
    && t in s.w.live && s.w.live[t].phase.Executing? && t.job in s.w.jobs
    && s.w.jobs[t.job].key.PublishKey? && s.w.jobs[t.job].key.execution in s.executions
  }

  predicate HasPublication(s: Store, x: nat) {
    exists i :: 0 <= i < |s.publications| && s.publications[i].execution == x
  }

  predicate ExperimentDraft(s: Store, d: nat) {
    d in s.decisions && s.decisions[d].experiment.Some? ==> s.decisions[d].experiment.value.status.DRAFT?
  }

  /** No reason to block at preflight. */
  predicate MayPublish(s: Store, x: nat) {
    && x in s.executions && s.executions[x].action in s.actions && s.executions[x].approval in s.approvals
    && var a, p := s.actions[s.executions[x].action], s.approvals[s.executions[x].approval];
       && a.permitted && a.reviewsPass && Open(s.controls)
       && p.action == s.executions[x].action && p.workflow == a.workflow && p.version == a.version
       && BindingHolds(s, a)
       && a.account in s.accounts && s.accounts[a.account].ready && s.accounts[a.account].chat == a.chat
       && ExperimentDraft(s, a.decision)
  }

  function PlanFor(s: Store, x: nat): Plan
    requires x in s.executions && s.executions[x].action in s.actions
  {
    var e := s.executions[x];
    if e.status.SUCCEEDED? || e.status.UNKNOWN_EXTERNAL_OUTCOME? then Skip
    else if !MayPublish(s, x) then Halt
    else if HasPublication(s, x) then Confirm
    else Go(x, e.action, s.actions[e.action].text, s.actions[e.action].chat)
  }

  function Preflight(s: Store, t: JR.Ticket): (v: Store)
    ensures v == s.(plans := v.plans)
  {
    if !Executing(s, t) || t in s.plans || s.executions[s.w.jobs[t.job].key.execution].action !in s.actions then s
    else s.(plans := s.plans[t := PlanFor(s, s.w.jobs[t.job].key.execution)])
  }

  predicate MaySend(s: Store, t: JR.Ticket) {
    Executing(s, t) && t in s.plans && s.plans[t].Go? && !s.w.live[t].phase.called
  }

  function Send(s: Store, t: JR.Ticket): (v: Store)
    ensures v == s.(w := v.w, sent := v.sent)
  {
    if !MaySend(s, t) then s
    else
      var g := s.plans[t];
      s.(w := JR.Call1(s.w, t), sent := s.sent + [Sent(t, g.execution, g.action, g.text, g.chat)])
  }

  datatype Outcome = Published | Ambiguous | Rejected

  /** A second external reference of one execution violates a unique constraint, so that commit fails. */
  predicate MayFinish(s: Store, t: JR.Ticket, o: Outcome) {
    && Executing(s, t) && t in s.plans
    && s.executions[s.w.jobs[t.job].key.execution].action in s.actions
    && (s.plans[t].Go? ==> s.w.live[t].phase.called && (o.Published? ==> !HasPublication(s, s.plans[t].execution)))
  }

  function SetStatuses(s: Store, x: nat, e: ExecutionStatus, a: Option<ActionStatus>): Store
    requires x in s.executions && s.executions[x].action in s.actions
  {
    var action := s.executions[x].action;
    s.(executions := s.executions[x := s.executions[x].(status := e)],
       actions := if a.None? then s.actions else s.actions[action := s.actions[action].(status := a.value)])
  }

  function SetExperiment(decisions: map<nat, Decision>, d: nat, status: ExperimentStatus): map<nat, Decision> {
    if d !in decisions || decisions[d].experiment.None? then decisions
    else decisions[d := Decision(Some(decisions[d].experiment.value.(status := status)))]
  }

  function RecordPublication(s: Store, x: nat): Store
    requires x in s.executions && s.executions[x].action in s.actions
  {
    var action := s.executions[x].action;
    var d := s.actions[action].decision;
    SetStatuses(s.(publications := s.publications + [Publication(x, action, d)],
                   decisions := SetExperiment(s.decisions, d, RUNNING)),
                x, SUCCEEDED, Some(EXECUTED))
  }

  function Recorded(s: Store, x: nat, plan: Plan, o: Outcome): (v: Store)
    requires x in s.executions && s.executions[x].action in s.actions
    ensures v == s.(executions := v.executions, actions := v.actions, publications := v.publications,
                    decisions := v.decisions)
  {
    match plan
    case Skip => s
    case Halt => SetStatuses(s, x, HALTED, Some(BLOCKED))
    case Confirm => SetStatuses(s, x, SUCCEEDED, Some(EXECUTED))
    case Go(_, _, _, _) =>
      match o
      case Published => RecordPublication(s, x)
      case Ambiguous => SetStatuses(s, x, UNKNOWN_EXTERNAL_OUTCOME, None)
      case Rejected => SetStatuses(s, x, FAILED, Some(BLOCKED))
  }

  /** The world moves; plans live only as long as their attempt transaction. */
  function WithWorld(s: Store, e: JR.Event): (v: Store)
    ensures v == s.(w := v.w, plans := v.plans)
  {
    var w := JR.Step(s.w, e);
    s.(w := w, plans := map t | t in s.plans && t in w.live && w.live[t].phase.Executing? :: s.plans[t])
  }

  function Finish(s: Store, t: JR.Ticket, o: Outcome): (v: Store)
    ensures v == s.(w := v.w, plans := v.plans, executions := v.executions, actions := v.actions,
                    publications := v.publications, decisions := v.decisions)
  {
    if !MayFinish(s, t, o) then s
    else WithWorld(Recorded(s, s.w.jobs[t.job].key.execution, s.plans[t], o), JR.Commit(t))
  }

  // ------------------------------------------------------------ metric, result, learning

  function Measure(s: Store, id: nat, publication: nat, reading: C.Reading): (v: Store)
    ensures v == s.(metrics := v.metrics)
  {
    if id in s.metrics || publication >= |s.publications| then s
    else
      var d := s.publications[publication].decision;
      if d !in s.decisions || s.decisions[d].experiment.None? || d !in s.checkpoints then s
      else s.(metrics := s.metrics[id := Metric(publication, d, s.checkpoints[d], reading)])
  }

  predicate Interpreted(s: Store, metric: nat) {
    exists i :: 0 <= i < |s.results| && s.results[i].metric == metric
  }

  predicate MayInterpret(s: Store, metric: nat) {
    && metric in s.metrics && !Interpreted(s, metric)
    && s.metrics[metric].decision in s.checkpoints && s.metrics[metric].decision in s.decisions
    && s.decisions[s.metrics[metric].decision].experiment.Some?
    && s.decisions[s.metrics[metric].decision].experiment.value.status.RUNNING?
    && C.Classify(s.checkpoints[s.metrics[metric].decision], s.metrics[metric].reading).Ok?
  }

  function ResultFor(s: Store, metric: nat): ExperimentResult
    requires MayInterpret(s, metric)
  {
    var d := s.metrics[metric].decision;
    ExperimentResult(metric, d, C.Classify(s.checkpoints[d], s.metrics[metric].reading).value)
  }

  /** interpret_checkpoint up to its write: reader names the transaction. */
  function ReadCheckpoint(s: Store, reader: nat, metric: nat): (v: Store)
    ensures v == s.(pending := v.pending)
  {
    if reader in s.pending || !MayInterpret(s, metric) then s
    else s.(pending := s.pending[reader := ResultFor(s, metric)])
  }

  /** The transaction's end: its error or crash, or its commit.  A second result of one metric version
      violates a unique constraint and rolls back; the experiment's status is not read again. */
  function DropReading(s: Store, reader: nat): (v: Store)
    ensures v == s.(pending := v.pending)
  {
    s.(pending := s.pending - {reader})
  }

  predicate MayCommitResult(s: Store, reader: nat) {
    reader in s.pending && !Interpreted(s, s.pending[reader].metric)
  }

  function CommitResult(s: Store, reader: nat): (v: Store)
    ensures v == s.(results := v.results, decisions := v.decisions, pending := v.pending)
  {
    if !MayCommitResult(s, reader) then DropReading(s, reader)
    else
      var r := s.pending[reader];
      DropReading(s, reader).(results := s.results + [r], decisions := SetExperiment(s.decisions, r.decision, COMPLETE))
  }

  predicate Learned(s: Store, result: nat) {
    exists i :: 0 <= i < |s.learnings| && s.learnings[i].result == result
  }

  /** The three learning reviews never block, so a result is learned from once. */
  function Learn(s: Store, result: nat): (v: Store)
    ensures v == s.(learnings := v.learnings)
  {
    if result >= |s.results| || Learned(s, result) then s
    else s.(learnings := s.learnings + [Learning(result, s.results[result].decision)])
  }

  // ------------------------------------------------------------ steps

  datatype Event =
    | NewDecision(decision: nat, experiment: Option<bool>)
    | Checkpoint(decision: nat, spec: C.Spec)
    | StartProduction(line: nat, decision: nat, maxRounds: nat, evidence: set<nat>)
    | Produce(line: nat, step: PW.Event)
    | Register(account: nat, registered: Account)
    | SetControls(user: nat, controls: Controls)
    | SetOwner(user: nat, owner: bool)
    | ProposeAction(action: nat, line: nat, account: nat, hasSecret: bool, rightsOk: bool)
    | ApproveAction(action: nat, user: nat, approval: nat, execution: nat, job: nat)
    | PreflightOf(ticket: JR.Ticket)
    | SendOf(ticket: JR.Ticket)
    | FinishOf(ticket: JR.Ticket, outcome: Outcome)
    | MeasureMetric(metric: nat, publication: nat, reading: C.Reading)
    | ReadMetric(reader: nat, metric: nat)
    | CommitMetric(reader: nat)
    | DropMetric(reader: nat)
    | LearnFrom(result: nat)
    | Runtime(event: JR.Event)

  /** Runtime events that are not this store's own: publish jobs are created, called and committed
      only through the operations above. */
  predicate Foreign(s: Store, e: JR.Event) {
    && (e.Create? ==> !e.key.PublishKey?)
    && (e.Call? || e.Commit? ==> e.ticket.job in s.w.jobs && !s.w.jobs[e.ticket.job].key.PublishKey?)
  }

  function AddDecision(s: Store, d: nat, experiment: Option<bool>): (v: Store)
    ensures v == s.(decisions := v.decisions)
  {
    if d in s.decisions then s
    else
      var draft := if experiment.None? then None else Some(Experiment(DRAFT, experiment.value));
      s.(decisions := s.decisions[d := Decision(draft)])
  }

  function AddLine(s: Store, wf: nat, d: nat, maxRounds: nat, evidence: set<nat>): (v: Store)
    ensures v == s.(lines := v.lines)
  {
    if wf in s.lines || d !in s.decisions then s
    else s.(lines := s.lines[wf := Line(d, PW.Started(maxRounds, evidence))])
  }

  function ProduceStep(s: Store, wf: nat, e: PW.Event): (v: Store)
    ensures v == s.(lines := v.lines)
  {
    if wf !in s.lines then s else s.(lines := s.lines[wf := s.lines[wf].(flow := PW.Step(s.lines[wf].flow, e))])
  }

  /** Registering accounts, the global controls (owners only) and ownership itself. */
  function ChangeSettings(s: Store, e: Event): (v: Store)
    ensures v == s.(accounts := v.accounts, controls := v.controls, owners := v.owners)
    ensures forall i :: i in s.accounts ==> i in v.accounts
  {
    match e
    case Register(id, account) => s.(accounts := s.accounts[id := account])
    case SetControls(user, controls) => if user in s.owners then s.(controls := controls) else s
    case SetOwner(user, owner) => s.(owners := if owner then s.owners + {user} else s.owners - {user})
    case _ => s
  }

  function CheckpointStep(s: Store, d: nat, spec: C.Spec): (v: Store)
    ensures v == s.(checkpoints := v.checkpoints)
  {
    if DefineCheckpoint(s, d, spec).Ok? then DefineCheckpoint(s, d, spec).value else s
  }

  function ProposeStep(s: Store, id: nat, wf: nat, account: nat, hasSecret: bool, rightsOk: bool): (v: Store)
    ensures v == s.(actions := v.actions)
  {
    var r := Propose(s, id, wf, account, hasSecret, rightsOk);
    if r.Ok? then r.value else s
  }

  ghost function Step(s: Store, e: Event): Store {
    match e
    case NewDecision(d, experiment) => AddDecision(s, d, experiment)
    case Checkpoint(d, spec) => CheckpointStep(s, d, spec)
    case StartProduction(wf, d, maxRounds, evidence) => AddLine(s, wf, d, maxRounds, evidence)
    case Produce(wf, pe) => ProduceStep(s, wf, pe)
    case Register(_, _) => ChangeSettings(s, e)
    case SetControls(_, _) => ChangeSettings(s, e)
    case SetOwner(_, _) => ChangeSettings(s, e)
    case ProposeAction(id, wf, account, hasSecret, rightsOk) => ProposeStep(s, id, wf, account, hasSecret, rightsOk)
    case ApproveAction(action, user, approval, execution, job) => Approve(s, action, user, approval, execution, job)
    case PreflightOf(t) => Preflight(s, t)
    case SendOf(t) => Send(s, t)
    case FinishOf(t, o) => Finish(s, t, o)
    case MeasureMetric(id, publication, reading) => Measure(s, id, publication, reading)
    case ReadMetric(reader, id) => ReadCheckpoint(s, reader, id)
    case CommitMetric(reader) => CommitResult(s, reader)
    case DropMetric(reader) => DropReading(s, reader)
    case LearnFrom(result) => Learn(s, result)
    case Runtime(je) => if Foreign(s, je) then WithWorld(s, je) else s
  }

  ghost function Run(s: Store, es: seq<Event>): Store {
    if |es| == 0 then s else Step(Run(s, es[..|es| - 1]), es[|es| - 1])
  }

  // ------------------------------------------------------------ what no step takes back

  predicate LinesPersist(s: Store, v: Store) {
    forall wf :: wf in s.lines ==>
      && wf in v.lines && v.lines[wf].decision == s.lines[wf].decision
      && (s.lines[wf].flow.status.ReadyForActionProposal? ==>
            && v.lines[wf].flow.status.ReadyForActionProposal?
            && v.lines[wf].flow.finalVersion == s.lines[wf].flow.finalVersion
            && v.lines[wf].flow.versions == s.lines[wf].flow.versions)
  }

  predicate ContractsPersist(s: Store, v: Store) {
    && (forall d :: d in s.decisions ==>
          && d in v.decisions && (s.decisions[d].experiment.Some? <==> v.decisions[d].experiment.Some?)
          && (s.decisions[d].experiment.Some? ==>
                v.decisions[d].experiment.value.metricOk == s.decisions[d].experiment.value.metricOk))
    && (forall d :: d in s.checkpoints ==> d in v.checkpoints && v.checkpoints[d] == s.checkpoints[d])
    && (forall m :: m in s.metrics ==> m in v.metrics && v.metrics[m] == s.metrics[m])
  }

  predicate BindingsPersist(s: Store, v: Store) {
    && (forall a :: a in s.actions ==> a in v.actions && v.actions[a] == s.actions[a].(status := v.actions[a].status))
    && (forall p :: p in s.approvals ==> p in v.approvals && v.approvals[p] == s.approvals[p])
    && (forall x :: x in s.executions ==>
          x in v.executions && v.executions[x] == s.executions[x].(status := v.executions[x].status))
    && (forall j :: j in s.w.jobs ==>
          j in v.w.jobs && v.w.jobs[j].key == s.w.jobs[j].key && v.w.jobs[j].maxAttempts == s.w.jobs[j].maxAttempts)
    && (forall i :: i in s.accounts ==> i in v.accounts)
  }

  predicate LogsPersist(s: Store, v: Store) {
    s.sent <= v.sent && s.publications <= v.publications && s.results <= v.results && s.learnings <= v.learnings
  }

  /** Everything that bindings and contracts rest on is kept for ever. */
  predicate Persists(s: Store, v: Store) {
    LinesPersist(s, v) && ContractsPersist(s, v) && BindingsPersist(s, v) && LogsPersist(s, v)
  }

  ghost predicate LinesOk(s: Store) {
    forall wf :: wf in s.lines ==>
      PW.Inv(s.lines[wf].flow) && PO.Grounded(s.lines[wf].flow) && s.lines[wf].decision in s.decisions
  }

  lemma WorldPersists(s: Store, e: JR.Event)
    ensures Persists(s, WithWorld(s, e))
  {
    forall j | j in s.w.jobs
      ensures
        var v := JR.Step(s.w, e);
        j in v.jobs && v.jobs[j].key == s.w.jobs[j].key && v.jobs[j].maxAttempts == s.w.jobs[j].maxAttempts
    {
      JR.RowsKeepKeys(s.w, e, j);
    }
  }

  lemma PersistsTransitive(s: Store, u: Store, v: Store)
    requires Persists(s, u) && Persists(u, v)
    ensures Persists(s, v)
  {
    forall a | a in s.actions
      ensures a in v.actions && v.actions[a] == s.actions[a].(status := v.actions[a].status)
    {
      assert a in u.actions && u.actions[a] == s.actions[a].(status := u.actions[a].status);
    }
    forall x | x in s.executions
      ensures x in v.executions && v.executions[x] == s.executions[x].(status := v.executions[x].status)
    {
      assert x in u.executions && u.executions[x] == s.executions[x].(status := u.executions[x].status);
    }
  }

  lemma ProducePersists(s: Store, wf: nat, e: PW.Event)
    requires LinesOk(s)
    ensures Persists(s, ProduceStep(s, wf, e))
  {
    if wf in s.lines {
      var flow := PW.Step(s.lines[wf].flow, e);
      if s.lines[wf].flow.status.ReadyForActionProposal? {
        PW.ReadyStep(s.lines[wf].flow, e);
      }
      LineReplaced(s, wf, flow);
    }
  }

  lemma LineReplaced(s: Store, wf: nat, flow: PW.Workflow)
    requires wf in s.lines
    requires s.lines[wf].flow.status.ReadyForActionProposal? ==>
      flow.status.ReadyForActionProposal? && flow.finalVersion == s.lines[wf].flow.finalVersion
      && flow.versions == s.lines[wf].flow.versions
    ensures Persists(s, s.(lines := s.lines[wf := s.lines[wf].(flow := flow)]))
  {}

  lemma SetStatusesPersists(s: Store, x: nat, e: ExecutionStatus, a: Option<ActionStatus>)
    requires x in s.executions && s.executions[x].action in s.actions
    ensures Persists(s, SetStatuses(s, x, e, a))
  {}

  lemma RecordPublicationPersists(s: Store, x: nat)
    requires x in s.executions && s.executions[x].action in s.actions
    ensures Persists(s, RecordPublication(s, x))
  {
    var action := s.executions[x].action;
    var d := s.actions[action].decision;
    var u := s.(publications := s.publications + [Publication(x, action, d)],
                decisions := SetExperiment(s.decisions, d, RUNNING));
    assert Persists(s, u);
    SetStatusesPersists(u, x, SUCCEEDED, Some(EXECUTED));
    PersistsTransitive(s, u, RecordPublication(s, x));
  }

  lemma RecordedPersists(s: Store, x: nat, plan: Plan, o: Outcome)
    requires x in s.executions && s.executions[x].action in s.actions
    ensures Persists(s, Recorded(s, x, plan, o))
  {
    match plan {
      case Skip => assert Persists(s, s);
      case Halt => SetStatusesPersists(s, x, HALTED, Some(BLOCKED));
      case Confirm => SetStatusesPersists(s, x, SUCCEEDED, Some(EXECUTED));
      case Go(_, _, _, _) =>
        match o {
          case Published => RecordPublicationPersists(s, x);
          case Ambiguous => SetStatusesPersists(s, x, UNKNOWN_EXTERNAL_OUTCOME, None);
          case Rejected => SetStatusesPersists(s, x, FAILED, Some(BLOCKED));
        }
    }
  }

  lemma FinishPersists(s: Store, t: JR.Ticket, o: Outcome)
    ensures Persists(s, Finish(s, t, o))
  {
    if MayFinish(s, t, o) {
      var x, plan := s.w.jobs[t.job].key.execution, s.plans[t];
      var u := Recorded(s, x, plan, o);
      RecordedPersists(s, x, plan, o);
      WorldPersists(u, JR.Commit(t));
      PersistsTransitive(s, u, WithWorld(u, JR.Commit(t)));
    } else {
      assert Persists(s, s);
    }
  }

  lemma ApproveWithPersists(s: Store, action: nat, user: nat, p: nat, x: nat, job: nat)
    requires action in s.actions
    ensures Persists(s, ApproveWith(s, action, user, p, x, job))
  {}

  lemma ApprovePersists(s: Store, action: nat, user: nat, p: nat, x: nat, job: nat)
    ensures Persists(s, Approve(s, action, user, p, x, job))
  {
    if Approvable(s, action, user) && FreshIds(s, p, x, job) {
      ApproveWithPersists(s, action, user, ApprovalOf(s, action, p), ExecutionOf(s, action, x), job);
    } else {
      assert Persists(s, s);
    }
  }

  lemma SendPersists(s: Store, t: JR.Ticket)
    ensures Persists(s, Send(s, t))
  {}

  lemma CheckpointAdded(s: Store, d: nat, spec: C.Spec)
    requires d !in s.checkpoints
    ensures Persists(s, s.(checkpoints := s.checkpoints[d := spec]))
  {}

  lemma ActionAdded(s: Store, id: nat, a: Action)
    requires id !in s.actions
    ensures Persists(s, s.(actions := s.actions[id := a]))
  {}

  lemma DecisionAdded(s: Store, d: nat, decision: Decision)
    requires d !in s.decisions
    ensures Persists(s, s.(decisions := s.decisions[d := decision]))
  {}

  lemma LineAdded(s: Store, wf: nat, line: Line)
    requires wf !in s.lines
    ensures Persists(s, s.(lines := s.lines[wf := line]))
  {}

  lemma MetricAdded(s: Store, id: nat, m: Metric)
    requires id !in s.metrics
    ensures Persists(s, s.(metrics := s.metrics[id := m]))
  {}

  lemma ResultAdded(s: Store, r: ExperimentResult, pending: map<nat, ExperimentResult>)
    ensures Persists(s, s.(results := s.results + [r], decisions := SetExperiment(s.decisions, r.decision, COMPLETE),
                           pending := pending))
  {}

  lemma LearningAdded(s: Store, l: Learning)
    ensures Persists(s, s.(learnings := s.learnings + [l]))
  {}

  lemma NothingLost(s: Store, v: Store)
    requires v.lines == s.lines && v.decisions == s.decisions && v.checkpoints == s.checkpoints
      && v.metrics == s.metrics
    requires v.actions == s.actions && v.approvals == s.approvals && v.executions == s.executions && v.w == s.w
    requires forall i :: i in s.accounts ==> i in v.accounts
    requires v.sent == s.sent && v.publications == s.publications && v.results == s.results
      && v.learnings == s.learnings
    ensures Persists(s, v)
  {}

  lemma DefinePersists(s: Store, d: nat, spec: C.Spec)
    ensures Persists(s, Step(s, Checkpoint(d, spec)))
  {
    if DefineCheckpoint(s, d, spec).Ok? && d !in s.checkpoints {
      CheckpointAdded(s, d, spec);
    } else {
      NothingLost(s, s);
    }
  }

  lemma ProposePersists(s: Store, id: nat, wf: nat, account: nat, hasSecret: bool, rightsOk: bool)
    ensures Persists(s, Step(s, ProposeAction(id, wf, account, hasSecret, rightsOk)))
  {
    var v := Step(s, ProposeAction(id, wf, account, hasSecret, rightsOk));
    if v != s {
      assert id !in s.actions && id in v.actions && v == s.(actions := s.actions[id := v.actions[id]]);
      ActionAdded(s, id, v.actions[id]);
    } else {
      NothingLost(s, s);
    }
  }

  lemma StartPersists(s: Store, e: Event)
    requires e.NewDecision? || e.StartProduction?
    ensures Persists(s, Step(s, e))
  {
    var v := Step(s, e);
    NothingLost(s, s);
    match e {
      case NewDecision(d, _) => if v != s { DecisionAdded(s, d, v.decisions[d]); }
      case StartProduction(wf, _, _, _) => if v != s { LineAdded(s, wf, v.lines[wf]); }
    }
  }

  lemma MeasurePersists(s: Store, id: nat, publication: nat, reading: C.Reading)
    ensures Persists(s, Measure(s, id, publication, reading))
  {
    var v := Measure(s, id, publication, reading);
    if v != s {
      MetricAdded(s, id, v.metrics[id]);
    } else {
      NothingLost(s, s);
    }
  }

  lemma PendingDoesNotMatter(s: Store, pending: map<nat, ExperimentResult>)
    ensures Persists(s, s.(pending := pending))
  {
    NothingLost(s, s.(pending := pending));
  }

  lemma CommitResultPersists(s: Store, reader: nat)
    ensures Persists(s, CommitResult(s, reader))
  {
    if MayCommitResult(s, reader) {
      ResultAdded(s, s.pending[reader], s.pending - {reader});
    } else {
      PendingDoesNotMatter(s, s.pending - {reader});
    }
  }

  lemma LearnPersists(s: Store, result: nat)
    ensures Persists(s, Learn(s, result))
  {
    if result < |s.results| && !Learned(s, result) {
      LearningAdded(s, Learning(result, s.results[result].decision));
    } else {
      NothingLost(s, s);
    }
  }

  lemma PlansDoNotMatter(s: Store, plans: map<JR.Ticket, Plan>)
    ensures Persists(s, s.(plans := plans))
  {
    NothingLost(s, s.(plans := plans));
  }

  lemma PreflightPersists(s: Store, t: JR.Ticket)
    ensures Persists(s, Preflight(s, t))
  {
    PlansDoNotMatter(s, Preflight(s, t).plans);
    assert Preflight(s, t) == s.(plans := Preflight(s, t).plans);
  }

  lemma SettingPersists(s: Store, e: Event)
    requires e.Register? || e.SetControls? || e.SetOwner?
    ensures Persists(s, Step(s, e))
  {
    var v := Step(s, e);
    assert v == s.(accounts := v.accounts, controls := v.controls, owners := v.owners);
    NothingLost(s, v);
  }

  lemma RuntimePersists(s: Store, e: Event)
    requires e.Runtime?
    ensures Persists(s, Step(s, e))
  {
    if Foreign(s, e.event) {
      WorldPersists(s, e.event);
    } else {
      NothingLost(s, s);
    }
  }

  /** One step takes nothing back. */
  lemma StepPersists(s: Store, e: Event)
    requires LinesOk(s)
    ensures Persists(s, Step(s, e))
  {
    if e.Produce? {
      ProducePersists(s, e.line, e.step);
    } else if e.NewDecision? || e.StartProduction? {
      StartPersists(s, e);
    } else if e.Checkpoint? {
      DefinePersists(s, e.decision, e.spec);
    } else if e.ProposeAction? {
      ProposePersists(s, e.action, e.line, e.account, e.hasSecret, e.rightsOk);
    } else if e.Register? || e.SetControls? || e.SetOwner? {
      SettingPersists(s, e);
    } else if e.ApproveAction? {
      ApprovePersists(s, e.action, e.user, e.approval, e.execution, e.job);
    } else if e.PreflightOf? {
      PreflightPersists(s, e.ticket);
    } else if e.SendOf? {
      SendPersists(s, e.ticket);
    } else if e.FinishOf? {
      FinishPersists(s, e.ticket, e.outcome);
    } else if e.MeasureMetric? {
      MeasurePersists(s, e.metric, e.publication, e.reading);
    } else if e.CommitMetric? {
      CommitResultPersists(s, e.reader);
    } else if e.ReadMetric? || e.DropMetric? {
      PendingDoesNotMatter(s, Step(s, e).pending);
    } else if e.LearnFrom? {
      LearnPersists(s, e.result);
    } else {
      RuntimePersists(s, e);
    }
  }
}
