/**
 Agent runs driven by jobs (ai_runtime/job_handler.py, ai_runtime/service.py): a run's row is
 written only inside its job's attempt transaction or failure transaction.  The model
 invocation is the attempt's outside call.
 */
module AgentRuns {
  import opened Basics
  import opened Jobs
  import JR = JobRuns

  datatype RunStatus = RunQueued | RunRunning | RunRetryWait | RunSucceeded | RunRefused | RunInvalidOutput | RunFailed

  /** The model's answer: parsed output, a refusal, or incomplete or invalid output. */
  datatype ModelResult = Parsed(output: nat) | Refusal | Unparsed

  datatype AgentRun = AgentRun(job: nat, status: RunStatus, output: Option<nat>)

  const MAX_RUN_ATTEMPTS := 3

  predicate IsTerminal(s: RunStatus) {
    s.RunSucceeded? || s.RunRefused? || s.RunInvalidOutput? || s.RunFailed?
  }

  /** The commit of a result.  A handler only gets here with a run it loaded as unfinished, hence without
      output, so that setting the output to nothing again writes no column. */
  function AfterResult(run: AgentRun, result: ModelResult): AgentRun {
    match result
    case Parsed(output) => run.(status := RunSucceeded, output := Some(output))
    case Refusal => run.(status := RunRefused)
    case Unparsed => run.(status := RunInvalidOutput)
  }

  function AfterFailure(run: AgentRun, willRetry: bool): AgentRun {
    if IsTerminal(run.status) then run
    else run.(status := if willRetry then RunRetryWait else RunFailed)
  }

  /** One AgentRun row under the handler. */
  class AgentRunRecord {
    const job: nat
    var status: RunStatus
    var output: Option<nat>

    constructor (job: nat)
      ensures View() == AgentRun(job, RunQueued, None)
    {
      this.job, status, output := job, RunQueued, None;
    }

    function View(): AgentRun
      reads this
    {
      AgentRun(job, status, output)
    }

    /** The attempt: contract checks and context building may raise before the model is invoked,
        the provider or the result checks after.  Raising rolls the row back. */
    method Handle(contractOk: bool, contextOk: bool, answer: Option<ModelResult>) returns (raised: bool, invoked: bool)
      requires RunRowOk(View())
      modifies this
      ensures RunRowOk(View())
      ensures IsTerminal(old(status)) ==> !raised && !invoked
      ensures !IsTerminal(old(status)) ==>
        (invoked <==> contractOk && contextOk) && (raised <==> !invoked || answer.None?)
      ensures raised || IsTerminal(old(status)) ==> View() == old(View())
      ensures !raised && !IsTerminal(old(status)) ==>
        View() == AfterResult(old(View()), answer.value) && IsTerminal(status)
      ensures old(status) != RunRunning ==> status != RunRunning
    {
      if IsTerminal(status) { return false, false; }
      var savedStatus, savedOutput := status, output;
      if !contractOk { return true, false; }
      status := RunRunning;
      if !contextOk {
        status := savedStatus;
        return true, false;
      }
      match answer {
        case None =>
          status, output := savedStatus, savedOutput;
          return true, true;
        case Some(Parsed(o)) => status, output := RunSucceeded, Some(o);
        case Some(Refusal) => status, output := RunRefused, None;
        case Some(Unparsed) => status, output := RunInvalidOutput, None;
      }
      return false, true;
    }

    method RecordAttemptFailure(willRetry: bool)
      modifies this
      ensures View() == AfterFailure(old(View()), willRetry)
    {
      if !IsTerminal(status) {
        status := if willRetry then RunRetryWait else RunFailed;
      }
    }
  }

  // ------------------------------------------------------------ runs and jobs together

  datatype System = System(w: JR.World, runs: map<nat, AgentRun>)

  datatype Event =
    | CreateRun(run: nat, job: nat, availableAt: int)
    | Invoke(ticket: JR.Ticket)
    | Finish(ticket: JR.Ticket, result: ModelResult)
    | RecordFailure(ticket: JR.Ticket, backoff: int)
    | Other(e: JR.Event)

  const INIT := System(JR.INIT, map[])

  predicate IsAgentJob(s: System, id: nat) {
    id in s.w.jobs && s.w.jobs[id].key.AgentRunKey? && s.w.jobs[id].key.run in s.runs
  }

  function RunOf(s: System, id: nat): nat
    requires IsAgentJob(s, id)
  {
    s.w.jobs[id].key.run
  }

  /** Events of other jobs, and the events of agent jobs that do not touch the run's row. */
  predicate Foreign(s: System, e: JR.Event) {
    && (e.Create? ==> !e.key.AgentRunKey?)
    && (e.Call? || e.Commit? || e.RecordFailure? ==>
          e.ticket.job in s.w.jobs && !s.w.jobs[e.ticket.job].key.AgentRunKey?)
  }

  predicate CanInvoke(s: System, t: JR.Ticket) {
    && t in s.w.live && s.w.live[t].phase == JR.Executing(false)
    && IsAgentJob(s, t.job) && !IsTerminal(s.runs[RunOf(s, t.job)].status)
  }

  predicate CanFinish(s: System, t: JR.Ticket) {
    && t in s.w.live && s.w.live[t].phase.Executing? && IsAgentJob(s, t.job)
    && (s.w.live[t].phase.called || IsTerminal(s.runs[RunOf(s, t.job)].status))
  }

  predicate CanRecord(s: System, t: JR.Ticket) {
    t in s.w.live && s.w.live[t].phase.Failing? && IsAgentJob(s, t.job)
  }

  /** The step the job table takes; a clock reading of the present stands for none. */
  function JobEvent(s: System, e: Event): JR.Event {
    match e
    case CreateRun(r, j, at) =>
      if r in s.runs || j in s.w.jobs then JR.Tick(s.w.now) else JR.Create(j, AgentRunKey(r), MAX_RUN_ATTEMPTS, at)
    case Invoke(t) => if CanInvoke(s, t) then JR.Call(t) else JR.Tick(s.w.now)
    case Finish(t, _) => if CanFinish(s, t) then JR.Commit(t) else JR.Tick(s.w.now)
    case RecordFailure(t, b) => if CanRecord(s, t) then JR.RecordFailure(t, b) else JR.Tick(s.w.now)
    case Other(je) => if Foreign(s, je) then je else JR.Tick(s.w.now)
  }

  function RunsAfter(s: System, e: Event): map<nat, AgentRun> {
    match e
    case CreateRun(r, j, _) =>
      if r in s.runs || j in s.w.jobs then s.runs else s.runs[r := AgentRun(j, RunQueued, None)]
    case Finish(t, result) =>
      if CanFinish(s, t) && s.w.live[t].phase.called
      then s.runs[RunOf(s, t.job) := AfterResult(s.runs[RunOf(s, t.job)], result)]
      else s.runs
    case RecordFailure(t, _) =>
      if CanRecord(s, t)
      then s.runs[RunOf(s, t.job) :=
                    AfterFailure(s.runs[RunOf(s, t.job)], WillRetry(s.w.jobs[t.job], s.w.live[t].phase.retry))]
      else s.runs
    case _ => s.runs
  }

  function Step(s: System, e: Event): System {
    System(JR.Step(s.w, JobEvent(s, e)), RunsAfter(s, e))
  }

  function Run(s: System, es: seq<Event>): System {
    if |es| == 0 then s else Step(Run(s, es[..|es| - 1]), es[|es| - 1])
  }

  // ------------------------------------------------------------ facts of every run

  predicate Bound(s: System, r: nat)
    requires r in s.runs
  {
    var run := s.runs[r];
    && run.job in s.w.jobs && s.w.jobs[run.job].key == AgentRunKey(r)
    && s.w.jobs[run.job].maxAttempts == 3
    && RunRowOk(run)
  }

  predicate Inv(s: System) {
    && JR.Inv(s.w)
    && (forall r :: r in s.runs ==> Bound(s, r))
    && (forall j :: j in s.w.jobs && s.w.jobs[j].key.AgentRunKey? ==>
          s.w.jobs[j].key.run in s.runs && s.runs[s.w.jobs[j].key.run].job == j)
  }

  predicate RunRowOk(run: AgentRun) {
    && (run.status.RunSucceeded? ==> run.output.Some?) && (!IsTerminal(run.status) ==> run.output.None?)
    && !run.status.RunRunning?
  }

  lemma RunRowsStayOk(s: System, e: Event, r: nat)
    requires r in s.runs && RunRowOk(s.runs[r])
    ensures r in RunsAfter(s, e) && RunsAfter(s, e)[r].job == s.runs[r].job && RunRowOk(RunsAfter(s, e)[r])
  {}

  lemma StepKeepsBound(s: System, e: Event, r: nat)
    requires Inv(s) && r in RunsAfter(s, e)
    ensures Bound(Step(s, e), r)
  {
    var je := JobEvent(s, e);
    if r in s.runs {
      assert Bound(s, r);
      RunRowsStayOk(s, e, r);
      JR.RowsKeepKeys(s.w, je, s.runs[r].job);
    } else {
      assert e.CreateRun? && !KeyTaken(s.w.jobs, AgentRunKey(r));
      assert je == JR.Create(e.job, AgentRunKey(r), MAX_RUN_ATTEMPTS, e.availableAt);
    }
  }

  lemma StepKeepsOwner(s: System, e: Event, j: nat)
    requires Inv(s) && j in JR.Step(s.w, JobEvent(s, e)).jobs
    requires JR.Step(s.w, JobEvent(s, e)).jobs[j].key.AgentRunKey?
    ensures
      var r := JR.Step(s.w, JobEvent(s, e)).jobs[j].key.run;
      r in RunsAfter(s, e) && RunsAfter(s, e)[r].job == j
  {
    var je := JobEvent(s, e);
    if j in s.w.jobs {
      JR.RowsKeepKeys(s.w, je, j);
      var r := s.w.jobs[j].key.run;
      assert Bound(s, r);
      RunRowsStayOk(s, e, r);
    } else {
      JR.NewJobIsCreated(s.w, je, j);
      assert e.CreateRun?;
    }
  }

  lemma StepKeepsInv(s: System, e: Event)
    requires Inv(s)
    ensures Inv(Step(s, e))
  {
    var je, runs := JobEvent(s, e), RunsAfter(s, e);
    var w := JR.Step(s.w, je);
    JR.StepKeepsInv(s.w, je);
    forall r | r in runs
      ensures Bound(System(w, runs), r)
    {
      StepKeepsBound(s, e, r);
    }
    forall j | j in w.jobs && w.jobs[j].key.AgentRunKey?
      ensures w.jobs[j].key.run in runs && runs[w.jobs[j].key.run].job == j
    {
      StepKeepsOwner(s, e, j);
    }
  }

  lemma {:induction false} EveryRunKeepsInv(es: seq<Event>)
    ensures Inv(Run(INIT, es))
  {
    if |es| > 0 {
      EveryRunKeepsInv(es[..|es| - 1]);
      StepKeepsInv(Run(INIT, es[..|es| - 1]), es[|es| - 1]);
    }
  }

  // ------------------------------------------------------------ coupling

  predicate Match(job: Status, run: RunStatus) {
    match job
    case Queued => run.RunQueued?
    case Running => run.RunQueued? || run.RunRetryWait?
    case RetryWait => run.RunRetryWait?
    case Failed => run.RunFailed?
    case Succeeded => run.RunSucceeded? || run.RunRefused? || run.RunInvalidOutput?
  }

  predicate Coupled(s: System) {
    forall r :: r in s.runs ==> RunCoupled(s.w, s.runs[r])
  }

  predicate NoLeaseExpired(w: JR.World) {
    forall id :: id in w.jobs ==> !LeaseExpired(w.jobs[id], w.now)
  }

  predicate NoReclaims(w: JR.World) {
    w.reclaims.Keys == w.jobs.Keys && forall id :: id in w.jobs ==> w.reclaims[id] == 0
  }

  predicate NoExpiryRun(es: seq<Event>) {
    NoLeaseExpired(Run(INIT, es).w) && (|es| > 0 ==> NoExpiryRun(es[..|es| - 1]))
  }

  predicate Good(s: System) { Inv(s) && JR.Exclusive(s.w) && NoReclaims(s.w) && Coupled(s) }

  lemma ExclusiveAndUnexpiredIsTimely(w: JR.World)
    requires JR.Inv(w) && JR.Exclusive(w) && NoLeaseExpired(w)
    ensures JR.Timely(w)
  {
    forall t | t in w.live
      ensures w.now < w.live[t].expiresAt
    {
      assert JR.HoldsLease(w, t);
    }
  }

  /** A job row the event does not name keeps its status when no lease has expired. */
  lemma OtherRowsKeepStatus(w: JR.World, e: JR.Event, j: nat)
    requires NoLeaseExpired(w) && j in w.jobs
    requires e.Claim? ==> e.job != j
    requires e.Commit? || e.RecordFailure? ==> e.ticket.job != j
    ensures j in JR.Step(w, e).jobs && JR.Step(w, e).jobs[j].status == w.jobs[j].status
  {}

  /** A claim of an unexpired row leaves the row alone or moves it from waiting to RUNNING. */
  lemma ClaimFromWaiting(w: JR.World, e: JR.Event, j: nat)
    requires NoLeaseExpired(w) && j in w.jobs && e.Claim? && e.job == j
    ensures
      var v := JR.Step(w, e);
      j in v.jobs && (v.jobs[j] == w.jobs[j] || (Waiting(w.jobs[j]) && v.jobs[j].status.Running?))
  {}

  lemma EndOfAttempt(w: JR.World, e: JR.Event)
    requires e.Commit? || e.RecordFailure?
    requires e.ticket in w.live && e.ticket.job in w.jobs
    requires e.Commit? ==> w.live[e.ticket].phase.Executing?
    requires e.RecordFailure? ==> w.live[e.ticket].phase.Failing?
    ensures
      var v, j := JR.Step(w, e), e.ticket.job;
      && j in v.jobs
      && (e.Commit? ==> v.jobs[j].status.Succeeded?)
      && (e.RecordFailure? ==>
            v.jobs[j].status == if WillRetry(w.jobs[j], w.live[e.ticket].phase.retry) then RetryWait else Failed)
  {}

  predicate RunCoupled(w: JR.World, run: AgentRun) {
    && run.job in w.jobs && Match(w.jobs[run.job].status, run.status)
    && (run.output.Some? <==> run.status.RunSucceeded?)
  }

  lemma OthersStayCoupled(s: System, e: Event, r: nat)
    requires Good(s) && NoLeaseExpired(s.w) && r in s.runs && r in RunsAfter(s, e)
    requires !((e.Finish? || e.RecordFailure?) && e.ticket.job == s.runs[r].job && e.ticket in s.w.live)
    ensures RunCoupled(JR.Step(s.w, JobEvent(s, e)), RunsAfter(s, e)[r])
  {
    var je, j := JobEvent(s, e), s.runs[r].job;
    assert Bound(s, r) && RunCoupled(s.w, s.runs[r]);
    assert RunsAfter(s, e)[r] == s.runs[r];
    if je.Claim? && je.job == j {
      ClaimFromWaiting(s.w, je, j);
    } else {
      assert je.Commit? || je.RecordFailure? ==> je.ticket.job != j;
      OtherRowsKeepStatus(s.w, je, j);
    }
  }

  lemma OwnAttemptKeepsCoupled(s: System, e: Event, r: nat)
    requires Good(s) && r in s.runs && r in RunsAfter(s, e)
    requires (e.Finish? || e.RecordFailure?) && e.ticket.job == s.runs[r].job && e.ticket in s.w.live
    ensures RunCoupled(JR.Step(s.w, JobEvent(s, e)), RunsAfter(s, e)[r])
  {
    assert Bound(s, r) && RunCoupled(s.w, s.runs[r]) && JR.HoldsLease(s.w, e.ticket);
    var je := JobEvent(s, e);
    if je.Commit? || je.RecordFailure? {
      EndOfAttempt(s.w, je);
    } else {
      assert je == JR.Tick(s.w.now) && RunsAfter(s, e) == s.runs;
    }
  }

  lemma StepKeepsCoupled(s: System, e: Event)
    requires Good(s) && NoLeaseExpired(s.w)
    ensures Coupled(Step(s, e))
  {
    var runs := RunsAfter(s, e);
    forall r | r in runs
      ensures RunCoupled(JR.Step(s.w, JobEvent(s, e)), runs[r])
    {
      if r !in s.runs {
        StepKeepsBound(s, e, r);
        assert !KeyTaken(s.w.jobs, AgentRunKey(r));
      } else if (e.Finish? || e.RecordFailure?) && e.ticket.job == s.runs[r].job && e.ticket in s.w.live {
        OwnAttemptKeepsCoupled(s, e, r);
      } else {
        assert Bound(s, r);
        OthersStayCoupled(s, e, r);
      }
    }
  }

  lemma StepKeepsNoReclaims(w: JR.World, e: JR.Event)
    requires NoReclaims(w) && NoLeaseExpired(w)
    ensures NoReclaims(JR.Step(w, e))
  {}

  lemma StepKeepsGood(s: System, e: Event)
    requires Good(s) && NoLeaseExpired(s.w)
    ensures Good(Step(s, e))
  {
    StepKeepsInv(s, e);
    ExclusiveAndUnexpiredIsTimely(s.w);
    JR.StepKeepsExclusive(s.w, JobEvent(s, e));
    StepKeepsNoReclaims(s.w, JobEvent(s, e));
    StepKeepsCoupled(s, e);
  }

  /** Why output and status can part after a takeover: a late refusal over a SUCCEEDED run changes the
      status and leaves the output. */
  lemma LateRefusalKeepsOutput(s: System, t: JR.Ticket)
    requires CanFinish(s, t) && s.w.live[t].phase.called && s.runs[RunOf(s, t.job)].status.RunSucceeded?
    requires s.runs[RunOf(s, t.job)].output.Some?
    ensures
      var r := RunOf(s, t.job);
      var v := Step(s, Finish(t, Refusal));
      r in v.runs && v.runs[r].status.RunRefused? && v.runs[r].output == s.runs[r].output
  {}

  /** While no lease expires, committed job and run statuses match, output exists exactly for SUCCEEDED
      runs and the model is invoked at most three times per run, whatever the workers, failures and
      crashes. */
  lemma {:induction false} JobsAndRunsStayCoupled(es: seq<Event>)
    requires NoExpiryRun(es)
    ensures Good(Run(INIT, es))
    ensures forall r :: r in Run(INIT, es).runs ==>
      JR.CallCount(Run(INIT, es).w.calls, Run(INIT, es).runs[r].job) <= 3
  {
    if |es| > 0 {
      JobsAndRunsStayCoupled(es[..|es| - 1]);
      StepKeepsGood(Run(INIT, es[..|es| - 1]), es[|es| - 1]);
    }
    var s := Run(INIT, es);
    forall r | r in s.runs
      ensures JR.CallCount(s.w.calls, s.runs[r].job) <= 3
    {
      assert Bound(s, r);
      JR.CallsBounded(s.w, s.runs[r].job);
    }
  }

  predicate Settled(s: System, r: nat) {
    && r in s.runs && s.runs[r].job in s.w.jobs
    && Terminal(s.w.jobs[s.runs[r].job]) && JR.Idle(s.w, s.runs[r].job)
  }

  lemma SettledRunStays(s: System, e: Event, r: nat)
    requires Inv(s) && Settled(s, r)
    ensures r in RunsAfter(s, e) && RunsAfter(s, e)[r] == s.runs[r]
  {
    assert Bound(s, r);
  }

  lemma {:induction false} SettledForever(s: System, es: seq<Event>, r: nat)
    requires Inv(s) && Settled(s, r)
    ensures
      var v := Run(s, es);
      && Inv(v) && Settled(v, r) && v.runs[r] == s.runs[r]
      && JR.CallCount(v.w.calls, s.runs[r].job) == JR.CallCount(s.w.calls, s.runs[r].job)
  {
    if |es| > 0 {
      var p, e := Run(s, es[..|es| - 1]), es[|es| - 1];
      SettledForever(s, es[..|es| - 1], r);
      StepKeepsInv(p, e);
      SettledRunStays(p, e, r);
      JR.SettledStep(p.w, JobEvent(p, e), s.runs[r].job);
    }
  }

  lemma {:induction false} RunSplits(s: System, es: seq<Event>, k: nat)
    requires k <= |es|
    ensures Run(s, es) == Run(Run(s, es[..k]), es[k..])
  {
    if k == |es| {
      assert es[..k] == es;
    } else {
      var p := es[..|es| - 1];
      assert p[..k] == es[..k] && es[k..][..|es| - k - 1] == p[k..];
      RunSplits(s, p, k);
    }
  }

  /** A terminal run is never rewritten and its model never invoked again: the hypothesis
      covers only what happened before, not the rest of the run. */
  lemma NeverAfterTerminal(es: seq<Event>, k: nat, r: nat)
    requires k <= |es| && NoExpiryRun(es[..k])
    requires r in Run(INIT, es[..k]).runs && IsTerminal(Run(INIT, es[..k]).runs[r].status)
    ensures
      var before, after := Run(INIT, es[..k]), Run(INIT, es);
      && r in after.runs && after.runs[r] == before.runs[r]
      && JR.CallCount(after.w.calls, before.runs[r].job) == JR.CallCount(before.w.calls, before.runs[r].job)
  {
    var s := Run(INIT, es[..k]);
    JobsAndRunsStayCoupled(es[..k]);
    var j := s.runs[r].job;
    assert Bound(s, r) && RunCoupled(s.w, s.runs[r]);
    forall t | t in s.w.live
      ensures t.job != j
    {
      assert JR.HoldsLease(s.w, t);
    }
    RunSplits(INIT, es, k);
    SettledForever(s, es[k..], r);
  }

  lemma CrashThenRecover(w: JR.World, t: JR.Ticket, at: int)
    requires JR.Inv(w) && JR.Exclusive(w) && t in w.live && w.now <= at && w.live[t].expiresAt <= at
    requires t.job in w.jobs && w.jobs[t.job].attempts >= w.jobs[t.job].maxAttempts
    ensures
      var v := JR.Step(JR.Step(JR.Step(w, JR.Crash(t)), JR.Tick(at)), JR.Recover);
      t.job in v.jobs && v.jobs[t.job].status.Failed? && JR.Idle(v, t.job)
  {
    assert JR.HoldsLease(w, t);
    forall u | u in w.live && u.job == t.job
      ensures u == t
    {
      JR.AtMostOneLive(w, u, t);
    }
  }

  /** An event of the job runtime alone moves the job table and no run. */
  lemma RuntimeEventOnly(s: System, e: JR.Event)
    requires e.Crash? || e.Tick? || e.Recover?
    ensures Step(s, Other(e)) == System(JR.Step(s.w, e), s.runs)
  {}

  function AfterCrash(s: System, t: JR.Ticket, at: int): System {
    Step(Step(Step(s, Other(JR.Crash(t))), Other(JR.Tick(at))), Other(JR.Recover))
  }

  lemma AfterCrashIs(s: System, t: JR.Ticket, at: int)
    requires Inv(s)
    ensures Inv(AfterCrash(s, t, at))
    ensures AfterCrash(s, t, at) == System(JR.Step(JR.Step(JR.Step(s.w, JR.Crash(t)), JR.Tick(at)), JR.Recover), s.runs)
  {
    RuntimeEventOnly(s, JR.Crash(t));
    var s1 := Step(s, Other(JR.Crash(t)));
    RuntimeEventOnly(s1, JR.Tick(at));
    var s2 := Step(s1, Other(JR.Tick(at)));
    RuntimeEventOnly(s2, JR.Recover);
    StepKeepsInv(s, Other(JR.Crash(t)));
    StepKeepsInv(s1, Other(JR.Tick(at)));
    StepKeepsInv(s2, Other(JR.Recover));
  }

  /** Why lease expiry has to be excluded: whenever the last allowed attempt of a run crashes and the
      scheduler recovers the lease, the job fails and the run keeps its pending status for ever. */
  lemma CrashOrphansRun(s: System, r: nat, t: JR.Ticket, at: int, later: seq<Event>)
    requires Good(s) && r in s.runs && t in s.w.live && t.job == s.runs[r].job && t.job in s.w.jobs
    requires s.w.jobs[t.job].attempts >= 3 && s.w.now <= at && s.w.live[t].expiresAt <= at
    ensures
      var v := Run(AfterCrash(s, t, at), later);
      && r in v.runs && v.runs[r] == s.runs[r] && !IsTerminal(v.runs[r].status)
      && t.job in v.w.jobs && Terminal(v.w.jobs[t.job])
  {
    assert Bound(s, r) && RunCoupled(s.w, s.runs[r]) && JR.HoldsLease(s.w, t);
    AfterCrashIs(s, t, at);
    CrashThenRecover(s.w, t, at);
    SettledForever(AfterCrash(s, t, at), later, r);
  }

  // ------------------------------------------------------------ what an attempt does

  /** An attempt that finds its run finished leaves it alone and does not invoke the model; it only commits its job. */
  lemma FinishedRunIsLeftAlone(s: System, t: JR.Ticket, result: ModelResult)
    requires t in s.w.live && s.w.live[t].phase == JR.Executing(false) && IsAgentJob(s, t.job)
    requires s.runs[RunOf(s, t.job)].status in {RunSucceeded, RunRefused, RunInvalidOutput, RunFailed}
    ensures Step(s, Invoke(t)) == s
    ensures
      var v := Step(s, Finish(t, result));
      && v.runs == s.runs && t !in v.w.live && v.w.calls == s.w.calls
      && t.job in v.w.jobs && v.w.jobs[t.job].status == Succeeded
  {
    assert s.w.(now := s.w.now) == s.w;
  }

  /** An attempt of an open run cannot finish without the model; with it, its answer decides the run. */
  lemma OpenRunGetsItsAnswer(s: System, t: JR.Ticket, result: ModelResult)
    requires t in s.w.live && s.w.live[t].phase == JR.Executing(false) && IsAgentJob(s, t.job)
    requires s.runs[RunOf(s, t.job)].status in {RunQueued, RunRunning, RunRetryWait}
    ensures Step(s, Finish(t, result)) == s
    ensures
      var i, r := Step(s, Invoke(t)), RunOf(s, t.job);
      var v := Step(i, Finish(t, result));
      && i.w.calls == s.w.calls + [t] && i.runs == s.runs
      && t !in v.w.live && t.job in v.w.jobs && v.w.jobs[t.job].status == Succeeded
      && v.runs.Keys == s.runs.Keys && (forall q :: q in s.runs && q != r ==> v.runs[q] == s.runs[q])
      && v.runs[r].job == s.runs[r].job
      && (match result
          case Parsed(output) => v.runs[r].status == RunSucceeded && v.runs[r].output == Some(output)
          case Refusal => v.runs[r].status == RunRefused && v.runs[r].output == s.runs[r].output
          case Unparsed => v.runs[r].status == RunInvalidOutput && v.runs[r].output == s.runs[r].output)
  {
    assert s.w.(now := s.w.now) == s.w;
  }

  /** A failure record marks an open run with the job's fate and leaves a finished one alone. */
  lemma FailureRecorded(s: System, t: JR.Ticket, backoff: int)
    requires t in s.w.live && s.w.live[t].phase.Failing? && IsAgentJob(s, t.job)
    ensures
      var v, j, r := Step(s, RecordFailure(t, backoff)), s.w.jobs[t.job], RunOf(s, t.job);
      var again := s.w.live[t].phase.retry && j.attempts < j.maxAttempts;
      && t !in v.w.live && v.w.jobs[t.job].status == (if again then RetryWait else Failed)
      && v.runs.Keys == s.runs.Keys && (forall q :: q in s.runs && q != r ==> v.runs[q] == s.runs[q])
      && (if s.runs[r].status in {RunSucceeded, RunRefused, RunInvalidOutput, RunFailed} then v.runs[r] == s.runs[r]
          else v.runs[r] == s.runs[r].(status := if again then RunRetryWait else RunFailed))
  {}
}
