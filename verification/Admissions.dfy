/**
 What each request adds to the tables, and exactly when (execution/service.py, application/phase6.py): checkpoints,
 proposals, approvals, production lines and settings, spelled out field by field; and two facts about whole runs
 that follow.
 */
module Admissions {
  import opened Basics
  import opened Jobs
  import opened Publishing
  import opened Provenance
  import opened Outcomes
  import JR = JobRuns
  import PW = ProductionWorkflow
  import C = Checkpoints

  // ------------------------------------------------------------ decisions, lines and settings

  /** A decision starts with its experiment in DRAFT, if it has one. */
  lemma DecisionRow(s: Store, d: nat, experiment: Option<bool>)
    ensures Step(s, NewDecision(d, experiment)).decisions ==
      if d in s.decisions then s.decisions
      else s.decisions[d := if experiment.None? then Decision(None)
                            else Decision(Some(Experiment(DRAFT, experiment.value)))]
  {}

  /** A production line starts empty, for a decision there is, with its limit and its evidence. */
  lemma LineRow(s: Store, wf: nat, d: nat, maxRounds: nat, evidence: set<nat>)
    ensures
      var lines := Step(s, StartProduction(wf, d, maxRounds, evidence)).lines;
      if wf in s.lines || d !in s.decisions then lines == s.lines
      else
        && lines.Keys == s.lines.Keys + {wf} && (forall y :: y in s.lines ==> lines[y] == s.lines[y])
        && lines[wf].decision == d
        && var flow := lines[wf].flow;
           && flow.status == PW.DecisionApprovalVerified && flow.revisionCount == 0 && flow.maxRounds == maxRounds
           && flow.versions == [] && flow.finalVersion.None? && flow.rows == [] && flow.evidence == evidence
  {}

  /** Accounts are registered or replaced as a whole. */
  lemma AccountRow(s: Store, id: nat, account: Account)
    ensures Step(s, Register(id, account)) == s.(accounts := s.accounts[id := account])
  {}

  lemma OwnersFrame(s: Store, e: Event)
    ensures e.SetOwner? || Step(s, e).owners == s.owners
  {
    if e.FinishOf? {
      assert Step(s, e) == Finish(s, e.ticket, e.outcome);
    } else if e.Runtime? {
      assert Step(s, e) == if Foreign(s, e.event) then WithWorld(s, e.event) else s;
    }
  }

  lemma OwnersAfter(s: Store, e: Event, user: nat)
    ensures user in Step(s, e).owners <==>
      if e.SetOwner? && e.user == user then e.owner else user in s.owners
  {
    OwnersFrame(s, e);
  }

  /** The last word about the user in this run made it an owner. */
  ghost predicate MadeOwner(es: seq<Event>, user: nat) {
    exists k :: 0 <= k < |es| && es[k] == SetOwner(user, true)
                && forall m :: k < m < |es| ==> !(es[m].SetOwner? && es[m].user == user)
  }

  lemma LastWord(es: seq<Event>, user: nat)
    requires |es| > 0
    ensures
      var e := es[|es| - 1];
      MadeOwner(es, user) <==> if e.SetOwner? && e.user == user then e.owner else MadeOwner(es[..|es| - 1], user)
  {
    var p, e := es[..|es| - 1], es[|es| - 1];
    if e.SetOwner? && e.user == user {
      if e.owner { assert es[|es| - 1] == SetOwner(user, true); }
    } else {
      LastWordOfOthers(es, user);
    }
  }

  lemma LastWordOfOthers(es: seq<Event>, user: nat)
    requires |es| > 0 && !(es[|es| - 1].SetOwner? && es[|es| - 1].user == user)
    ensures MadeOwner(es, user) <==> MadeOwner(es[..|es| - 1], user)
  {
    var p := es[..|es| - 1];
    if MadeOwner(p, user) {
      var k :| 0 <= k < |p| && p[k] == SetOwner(user, true)
               && forall m :: k < m < |p| ==> !(p[m].SetOwner? && p[m].user == user);
      assert es[k] == SetOwner(user, true);
    }
    if MadeOwner(es, user) {
      var k :| 0 <= k < |es| && es[k] == SetOwner(user, true)
               && forall m :: k < m < |es| ==> !(es[m].SetOwner? && es[m].user == user);
      assert p[k] == SetOwner(user, true);
    }
  }

  /** Who may approve at the end of a run. */
  lemma {:induction false} OwnersAre(es: seq<Event>, user: nat)
    ensures user in Run(INIT, es).owners <==> MadeOwner(es, user)
  {
    if |es| > 0 {
      OwnersAre(es[..|es| - 1], user);
      OwnersAfter(Run(INIT, es[..|es| - 1]), es[|es| - 1], user);
      LastWord(es, user);
    }
  }

  // ------------------------------------------------------------ checkpoints

  /** A checkpoint is written once, for a decision with an experiment on a known metric, before any proposal. */
  lemma CheckpointRow(s: Store, d: nat, spec: C.Spec)
    ensures
      var admitted := && d in s.decisions && s.decisions[d].experiment.Some? && s.decisions[d].experiment.value.metricOk
                      && d !in s.checkpoints && !exists a :: a in s.actions && s.actions[a].decision == d;
      Step(s, Checkpoint(d, spec)) == if admitted then s.(checkpoints := s.checkpoints[d := spec]) else s
  {}

  // ------------------------------------------------------------ proposals

  /** The action is the one for this version of this line, this account and chat, and this text. */
  predicate IsFor(a: Action, wf: nat, version: nat, account: nat, chat: nat, text: string) {
    && a.workflow == wf && a.version == version && a.account == account && a.chat == chat && a.text == text
  }

  /** The line is READY with a final version that is there. */
  predicate Finished(s: Store, wf: nat) {
    && wf in s.lines && s.lines[wf].flow.status == PW.ReadyForActionProposal && s.lines[wf].flow.finalVersion.Some?
    && 1 <= s.lines[wf].flow.finalVersion.value <= |s.lines[wf].flow.versions|
  }

  /** No experiment, or one in DRAFT on a known metric whose checkpoint is registered. */
  predicate Registered(s: Store, d: nat) {
    d in s.decisions && s.decisions[d].experiment.Some? ==>
      && s.decisions[d].experiment.value.status == DRAFT && s.decisions[d].experiment.value.metricOk
      && d in s.checkpoints
  }

  /** The five reviews would all pass. */
  predicate Passing(s: Store, d: nat, text: string, account: Account, rightsOk: bool) {
    rightsOk && 1 <= |text| <= 4096 && account.ready && account.canPost && Registered(s, d)
  }

  /** There is an action for the line's final version and text already, at the account and its chat. */
  predicate Known(s: Store, wf: nat, account: nat)
    requires Finished(s, wf) && account in s.accounts
  {
    var flow := s.lines[wf].flow;
    exists a :: a in s.actions && IsFor(s.actions[a], wf, flow.finalVersion.value, account, s.accounts[account].chat,
                                        flow.versions[flow.finalVersion.value - 1].draft.body)
  }

  predicate Unpaused(c: Controls) { !c.automationPaused && !c.executionPaused && !c.writesRevoked }

  /** A proposal is admitted for a finished line and a known account, without a secret, unless there is one for the
      same version, account, chat and text already. */
  lemma ProposalRefused(s: Store, id: nat, wf: nat, account: nat, hasSecret: bool, rightsOk: bool)
    requires !Finished(s, wf) || account !in s.accounts || id in s.actions || hasSecret || Known(s, wf, account)
    ensures Step(s, ProposeAction(id, wf, account, hasSecret, rightsOk)) == s
  {
    if Finished(s, wf) && account in s.accounts && Known(s, wf, account) {
      var flow := s.lines[wf].flow;
      var version, chat := flow.finalVersion.value, s.accounts[account].chat;
      var a :| a in s.actions && IsFor(s.actions[a], wf, version, account, chat, flow.versions[version - 1].draft.body);
      assert SameKey(s.actions[a], wf, version, account, chat, Body(s, wf, version));
    }
  }

  /** An admitted proposal is for the final body; it may be approved exactly when nothing is paused and the reviews
      pass, and is blocked otherwise. */
  function RowFor(s: Store, wf: nat, account: nat, rightsOk: bool): Action
    requires Finished(s, wf) && account in s.accounts
  {
    var version, d := s.lines[wf].flow.finalVersion.value, s.lines[wf].decision;
    var text := s.lines[wf].flow.versions[version - 1].draft.body;
    var pass := Passing(s, d, text, s.accounts[account], rightsOk);
    Action(if pass && Unpaused(s.controls) then APPROVAL_REQUIRED else BLOCKED, wf, version, d, account,
           s.accounts[account].chat, text, pass, pass && Unpaused(s.controls))
  }

  lemma KnownIsSameKey(s: Store, wf: nat, account: nat)
    requires Finished(s, wf) && account in s.accounts
    ensures
      var version := s.lines[wf].flow.finalVersion.value;
      IsFinal(s, wf, version)
      && (Known(s, wf, account) <==>
          exists a :: a in s.actions && SameKey(s.actions[a], wf, version, account, s.accounts[account].chat,
                                                Body(s, wf, version)))
  {
    forall a | a in s.actions
      ensures
        var version := s.lines[wf].flow.finalVersion.value;
        IsFor(s.actions[a], wf, version, account, s.accounts[account].chat, Body(s, wf, version))
        <==> SameKey(s.actions[a], wf, version, account, s.accounts[account].chat, Body(s, wf, version))
    {}
  }

  lemma ProposalRow(s: Store, id: nat, wf: nat, account: nat, rightsOk: bool)
    requires Finished(s, wf) && account in s.accounts && id !in s.actions && !Known(s, wf, account)
    ensures Step(s, ProposeAction(id, wf, account, false, rightsOk)) ==
      s.(actions := s.actions[id := RowFor(s, wf, account, rightsOk)])
  {
    PassingIsReviewed(s, wf, s.lines[wf].flow.finalVersion.value, account, rightsOk);
    KnownIsSameKey(s, wf, account);
    var r := Propose(s, id, wf, account, false, rightsOk);
    assert r.Ok? && r.value.actions == s.actions[id := RowFor(s, wf, account, rightsOk)];
  }

  lemma PassingIsReviewed(s: Store, wf: nat, version: nat, account: nat, rightsOk: bool)
    ensures IsFinal(s, wf, version) && account in s.accounts ==>
      (ReviewsPass(s, wf, version, s.accounts[account], rightsOk) <==>
       Passing(s, s.lines[wf].decision, s.lines[wf].flow.versions[version - 1].draft.body, s.accounts[account],
               rightsOk))
  {}

  predicate NoTwins(s: Store) {
    forall a, b :: a in s.actions && b in s.actions && a != b ==>
      var y := s.actions[b];
      !IsFor(s.actions[a], y.workflow, y.version, y.account, y.chat, y.text)
  }

  lemma OldActionsDiffer(s: Store, v: Store)
    requires NoTwins(s) && BindingsPersist(s, v) && forall a :: a in v.actions ==> a in s.actions
    ensures NoTwins(v)
  {}

  lemma NewActionDiffers(s: Store, id: nat, a: Action)
    requires NoTwins(s) && id !in s.actions
    requires !exists b :: b in s.actions && IsFor(s.actions[b], a.workflow, a.version, a.account, a.chat, a.text)
    ensures NoTwins(s.(actions := s.actions[id := a]))
  {}

  lemma ProposalKeepsNoTwins(s: Store, id: nat, wf: nat, account: nat, hasSecret: bool, rightsOk: bool)
    requires NoTwins(s)
    ensures NoTwins(Step(s, ProposeAction(id, wf, account, hasSecret, rightsOk)))
  {
    if !Finished(s, wf) || account !in s.accounts || id in s.actions || hasSecret || Known(s, wf, account) {
      ProposalRefused(s, id, wf, account, hasSecret, rightsOk);
    } else {
      ProposalRow(s, id, wf, account, rightsOk);
      NewActionDiffers(s, id, Step(s, ProposeAction(id, wf, account, hasSecret, rightsOk)).actions[id]);
    }
  }

  lemma StepKeepsNoTwins(s: Store, e: Event)
    requires LinesOk(s) && NoTwins(s)
    ensures NoTwins(Step(s, e))
  {
    if e.ProposeAction? {
      ProposalKeepsNoTwins(s, e.action, e.line, e.account, e.hasSecret, e.rightsOk);
    } else {
      StepPersists(s, e);
      RowOrigins(s, e);
      OldActionsDiffer(s, Step(s, e));
    }
  }

  /** In every run, no two actions are for the same version, account, chat and text. */
  lemma {:induction false} OneActionPerKey(es: seq<Event>)
    ensures NoTwins(Run(INIT, es))
  {
    if |es| > 0 {
      OneActionPerKey(es[..|es| - 1]);
      EveryRunLinesOk(es[..|es| - 1]);
      StepKeepsNoTwins(Run(INIT, es[..|es| - 1]), es[|es| - 1]);
    }
  }

  // ------------------------------------------------------------ approvals

  /** An owner may approve a permitted action that waits for it or has it already, while its text is still the body
      of the final version of a READY line. */
  lemma ApprovableIff(s: Store, action: nat, user: nat)
    ensures Approvable(s, action, user) <==>
      && user in s.owners && action in s.actions && s.actions[action].status in {APPROVAL_REQUIRED, APPROVED}
      && s.actions[action].permitted
      && Finished(s, s.actions[action].workflow)
      && var a, flow := s.actions[action], s.lines[s.actions[action].workflow].flow;
         flow.finalVersion == Some(a.version) && flow.versions[a.version - 1].draft.body == a.text
  {}

  /** A first approval adds the approval, a pending execution and its one-attempt job, and nothing else. */
  lemma ApprovalRows(s: Store, action: nat, user: nat, p: nat, x: nat, job: nat)
    requires Approvable(s, action, user) && FreshIds(s, p, x, job)
    requires forall q :: q in s.approvals ==> s.approvals[q].action != action
    requires forall y :: y in s.executions ==> s.executions[y].action != action
    requires !KeyTaken(s.w.jobs, PublishKey(x))
    ensures
      var v, a := Step(s, ApproveAction(action, user, p, x, job)), s.actions[action];
      && v.actions == s.actions[action := a.(status := APPROVED)]
      && v.approvals == s.approvals[p := Approval(action, a.workflow, a.version, user)]
      && v.executions == s.executions[x := Execution(action, p, PENDING, job)]
      && v.w.jobs == s.w.jobs[job := Job(PublishKey(x), Queued, 0, 1, s.w.now, None, None, None)]
      && v == s.(actions := v.actions, approvals := v.approvals, executions := v.executions, w := v.w)
  {}

  // ------------------------------------------------------------ metrics, results, learnings

  /** A metric row belongs to a publication of a decision with an experiment and a checkpoint, and keeps both. */
  lemma MetricRow(s: Store, id: nat, p: nat, reading: C.Reading)
    ensures
      var admitted := && id !in s.metrics && p < |s.publications| && s.publications[p].decision in s.decisions
                      && s.decisions[s.publications[p].decision].experiment.Some?
                      && s.publications[p].decision in s.checkpoints;
      Step(s, MeasureMetric(id, p, reading)) ==
        if !admitted then s
        else
          var d := s.publications[p].decision;
          s.(metrics := s.metrics[id := Metric(p, d, s.checkpoints[d], reading)])
  {}

  /** Only this decision's experiment gets the status. */
  predicate Marked(before: map<nat, Decision>, after: map<nat, Decision>, d: nat, status: ExperimentStatus) {
    && after.Keys == before.Keys && (forall y :: y in before && y != d ==> after[y] == before[y])
    && (d in before && before[d].experiment.None? ==> after[d] == before[d])
    && (d in before && before[d].experiment.Some? ==>
          after[d].experiment == Some(Experiment(status, before[d].experiment.value.metricOk)))
  }

  lemma SetExperimentMarks(decisions: map<nat, Decision>, d: nat, status: ExperimentStatus)
    ensures Marked(decisions, SetExperiment(decisions, d, status), d, status)
  {}

  /** A result that commits ends its decision's experiment. */
  lemma ResultRow(s: Store, reader: nat)
    requires reader in s.pending && forall i :: 0 <= i < |s.results| ==> s.results[i].metric != s.pending[reader].metric
    ensures
      var v, r := Step(s, CommitMetric(reader)), s.pending[reader];
      && v.results == s.results + [r] && v.pending == s.pending - {reader}
      && Marked(s.decisions, v.decisions, r.decision, COMPLETE)
  {
    SetExperimentMarks(s.decisions, s.pending[reader].decision, COMPLETE);
    assert MayCommitResult(s, reader);
    assert Step(s, CommitMetric(reader)) == CommitResult(s, reader);
  }

  /** One learning per result, about its decision. */
  lemma LearningRow(s: Store, result: nat)
    ensures
      var again := exists i :: 0 <= i < |s.learnings| && s.learnings[i].result == result;
      Step(s, LearnFrom(result)) ==
        if result >= |s.results| || again then s
        else s.(learnings := s.learnings + [Learning(result, s.results[result].decision)])
  {}

  /** Everything else the runtime does happens here too, but publish jobs come, call and commit only through
      approvals, sends and finishes. */
  lemma RuntimeMoves(s: Store, e: JR.Event)
    ensures
      var publishes := match e
                       case Create(_, key, _, _) => key.PublishKey?
                       case Call(t) => t.job !in s.w.jobs || s.w.jobs[t.job].key.PublishKey?
                       case Commit(t) => t.job !in s.w.jobs || s.w.jobs[t.job].key.PublishKey?
                       case _ => false;
      Step(s, Runtime(e)).w == if publishes then s.w else JR.Step(s.w, e)
  {}
}
