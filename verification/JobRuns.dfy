/**
 Every interleaving of job creation, claims, attempts, crashes, lease recovery and the clock.

 A worker's attempt is the claim transaction, then the attempt transaction (which checks
 ownership when it starts, runs the handler and marks success when it commits, without
 checking again), then on an error the failure transaction.  A crash may end an attempt
 between any two of these.  The queue may deliver any job id to any worker at any time.

 A call to the outside made by a handler is not undone by a rollback or a crash, so it is
 recorded in a log of its own.
 */
module JobRuns {
  import opened Basics
  import opened Jobs

  /** One claim of one job: the number is the attempt count that claim produced. */
  datatype Ticket = Ticket(job: nat, number: nat)

  datatype Phase = Claimed | Executing(called: bool) | Failing(retry: bool)

  datatype Attempt = Attempt(worker: nat, expiresAt: int, phase: Phase)

  datatype World = World(
    jobs: map<nat, Job>,
    now: int,
    live: map<Ticket, Attempt>,
    calls: seq<Ticket>,
    waitingClaims: map<nat, nat>,
    reclaims: map<nat, nat>)

  datatype Event =
    | Create(id: nat, key: Key, maxAttempts: nat, availableAt: int)
    | Claim(job: nat, worker: nat, lease: int)
    | Begin(ticket: Ticket)
    | Call(ticket: Ticket)
    | Commit(ticket: Ticket)
    | Fail(ticket: Ticket, retry: bool)
    | RecordFailure(ticket: Ticket, backoff: int)
    | Crash(ticket: Ticket)
    | Recover
    | Tick(to: int)

  const INIT := World(map[], 0, map[], [], map[], map[])

  function Create1(w: World, id: nat, key: Key, maxAttempts: nat, availableAt: int): World {
    if id in w.jobs || maxAttempts < 1 || KeyTaken(w.jobs, key) then w
    else w.(jobs := w.jobs[id := NewRow(key, maxAttempts, availableAt)],
            waitingClaims := w.waitingClaims[id := 0], reclaims := w.reclaims[id := 0])
  }

  function Claim1(w: World, id: nat, worker: nat, lease: int): World {
    if id !in w.jobs || !Claimable(w.jobs[id], w.now) then w
    else
      var row := ClaimedRow(w.jobs[id], worker, w.now, lease);
      w.(jobs := w.jobs[id := row],
         live := w.live[Ticket(id, row.attempts) := Attempt(worker, w.now + lease, Claimed)],
         waitingClaims := if Waiting(w.jobs[id]) then Bump(w.waitingClaims, id) else w.waitingClaims,
         reclaims := if Waiting(w.jobs[id]) then w.reclaims else Bump(w.reclaims, id))
  }

  function Bump(m: map<nat, nat>, id: nat): map<nat, nat> {
    m[id := 1 + if id in m then m[id] else 0]
  }

  predicate Owns(w: World, t: Ticket) {
    t in w.live && t.job in w.jobs &&
    w.jobs[t.job].status.Running? && w.jobs[t.job].leaseOwner == Some(w.live[t].worker)
  }

  function Begin1(w: World, t: Ticket): World {
    if t !in w.live || !w.live[t].phase.Claimed? then w
    else if Owns(w, t) then w.(live := w.live[t := w.live[t].(phase := Executing(false))])
    else w.(live := w.live - {t})
  }

  function Call1(w: World, t: Ticket): World {
    if t !in w.live || w.live[t].phase != Executing(false) then w
    else w.(live := w.live[t := w.live[t].(phase := Executing(true))], calls := w.calls + [t])
  }

  function Commit1(w: World, t: Ticket): World {
    if t !in w.live || !w.live[t].phase.Executing? || t.job !in w.jobs then w
    else w.(jobs := w.jobs[t.job := SucceededRow(w.jobs[t.job], w.now)], live := w.live - {t})
  }

  function Fail1(w: World, t: Ticket, retry: bool): World {
    if t !in w.live || w.live[t].phase.Failing? then w
    else w.(live := w.live[t := w.live[t].(phase := Failing(retry))])
  }

  function RecordFailure1(w: World, t: Ticket, backoff: int): World {
    if t !in w.live || !w.live[t].phase.Failing? || t.job !in w.jobs then w
    else w.(jobs := w.jobs[t.job := FailedRow(w.jobs[t.job], w.live[t].phase.retry, w.now, backoff)],
            live := w.live - {t})
  }

  function Step(w: World, e: Event): World {
    match e
    case Create(id, key, max, at) => Create1(w, id, key, max, at)
    case Claim(id, worker, lease) => Claim1(w, id, worker, lease)
    case Begin(t) => Begin1(w, t)
    case Call(t) => Call1(w, t)
    case Commit(t) => Commit1(w, t)
    case Fail(t, retry) => Fail1(w, t, retry)
    case RecordFailure(t, backoff) => RecordFailure1(w, t, backoff)
    case Crash(t) => w.(live := w.live - {t})
    case Recover => w.(jobs := RecoveredTable(w.jobs, w.now))
    case Tick(to) => if to < w.now then w else w.(now := to)
  }

  function Run(w: World, es: seq<Event>): World {
    if |es| == 0 then w else Step(Run(w, es[..|es| - 1]), es[|es| - 1])
  }

  // ------------------------------------------------------------ facts of every run

  predicate CountsOk(w: World) {
    && w.waitingClaims.Keys == w.jobs.Keys && w.reclaims.Keys == w.jobs.Keys
    && forall id :: id in w.jobs ==>
         && w.jobs[id].attempts == w.waitingClaims[id] + w.reclaims[id]
         && w.waitingClaims[id] <= w.jobs[id].maxAttempts
  }

  predicate TicketIssued(w: World, t: Ticket) {
    t.job in w.jobs && 1 <= t.number <= w.jobs[t.job].attempts
  }

  predicate TicketsOk(w: World) { forall t :: t in w.live ==> TicketIssued(w, t) }

  predicate NoRepeats(calls: seq<Ticket>) { forall i, k :: 0 <= i < k < |calls| ==> calls[i] != calls[k] }

  predicate CallsOk(w: World) {
    && (forall i :: 0 <= i < |w.calls| ==> TicketIssued(w, w.calls[i]))
    && NoRepeats(w.calls)
    && (forall t :: t in w.live && (w.live[t].phase.Claimed? || w.live[t].phase == Executing(false)) ==>
          t !in w.calls)
  }

  predicate Inv(w: World) {
    RowsOk(w.jobs) && KeysUnique(w.jobs) && CountsOk(w) && TicketsOk(w) && CallsOk(w)
  }

  lemma StepKeepsRowsOk(w: World, e: Event)
    requires RowsOk(w.jobs)
    ensures RowsOk(Step(w, e).jobs)
  {
    match e {
      case Create(id, key, max, at) =>
      case Claim(id, worker, lease) =>
      case Commit(t) =>
      case RecordFailure(t, backoff) =>
      case Recover =>
      case _ =>
    }
  }

  lemma StepKeepsKeys(w: World, e: Event)
    requires KeysUnique(w.jobs)
    ensures KeysUnique(Step(w, e).jobs)
  {
    match e {
      case Create(id, key, max, at) =>
      case Claim(id, worker, lease) =>
      case Commit(t) =>
      case RecordFailure(t, backoff) =>
      case Recover =>
      case _ =>
    }
  }

  lemma ClaimKeepsCounts(w: World, id: nat, worker: nat, lease: int)
    requires RowsOk(w.jobs) && CountsOk(w)
    ensures CountsOk(Claim1(w, id, worker, lease))
  {}

  lemma SameCounts(w: World, v: World)
    requires CountsOk(w) && v.waitingClaims == w.waitingClaims && v.reclaims == w.reclaims && v.jobs.Keys == w.jobs.Keys
    requires forall id :: id in w.jobs ==>
      v.jobs[id].attempts == w.jobs[id].attempts && v.jobs[id].maxAttempts == w.jobs[id].maxAttempts
    ensures CountsOk(v)
  {}

  lemma StepKeepsCounts(w: World, e: Event)
    requires RowsOk(w.jobs) && CountsOk(w)
    ensures CountsOk(Step(w, e))
  {
    if e.Claim? {
      ClaimKeepsCounts(w, e.job, e.worker, e.lease);
    } else if !e.Create? {
      RowsKeepCounts(w, e);
      SameCounts(w, Step(w, e));
    } else {
      assert Step(w, e) == Create1(w, e.id, e.key, e.maxAttempts, e.availableAt);
    }
  }

  lemma RowsKeepCounts(w: World, e: Event)
    requires !e.Claim? && !e.Create?
    ensures Step(w, e).waitingClaims == w.waitingClaims && Step(w, e).reclaims == w.reclaims
    ensures Step(w, e).jobs.Keys == w.jobs.Keys
    ensures forall id :: id in w.jobs ==>
      Step(w, e).jobs[id].attempts == w.jobs[id].attempts && Step(w, e).jobs[id].maxAttempts == w.jobs[id].maxAttempts
  {
    assert Step(w, e).jobs.Keys == w.jobs.Keys;
  }

  /** Attempt counts and issued tickets only grow. */
  lemma StepKeepsIssued(w: World, e: Event, t: Ticket)
    requires TicketIssued(w, t)
    ensures TicketIssued(Step(w, e), t)
  {}

  lemma StepKeepsTickets(w: World, e: Event)
    requires TicketsOk(w)
    ensures TicketsOk(Step(w, e))
  {
    var v := Step(w, e);
    forall t | t in v.live
      ensures TicketIssued(v, t)
    {
      if t in w.live { StepKeepsIssued(w, e, t); }
    }
  }

  lemma StepKeepsCalls(w: World, e: Event)
    requires TicketsOk(w) && CallsOk(w)
    ensures CallsOk(Step(w, e))
  {
    var v := Step(w, e);
    forall i | 0 <= i < |v.calls|
      ensures TicketIssued(v, v.calls[i])
    {
      StepKeepsIssued(w, e, v.calls[i]);
    }
    if e.Claim? && v != w {
      var newTicket := Ticket(e.job, v.jobs[e.job].attempts);
      assert !TicketIssued(w, newTicket);
    }
  }

  /** One step keeps the row, counting, ticket and call facts. */
  lemma StepKeepsInv(w: World, e: Event)
    requires Inv(w)
    ensures Inv(Step(w, e))
  {
    StepKeepsRowsOk(w, e);
    StepKeepsKeys(w, e);
    StepKeepsCounts(w, e);
    StepKeepsTickets(w, e);
    StepKeepsCalls(w, e);
  }

  /** In every run: waiting rows are below their limit, leases are exactly on RUNNING rows, completion
      exactly on terminal rows, and claims from a waiting status stay within the limit. */
  lemma {:induction false} EveryRunKeepsInv(es: seq<Event>)
    ensures Inv(Run(INIT, es))
    ensures forall id :: id in Run(INIT, es).jobs ==>
      var w, j := Run(INIT, es), Run(INIT, es).jobs[id];
      && (Waiting(j) ==> j.attempts < j.maxAttempts)
      && (j.leaseOwner.Some? <==> j.status.Running?) && (j.leaseExpiresAt.Some? <==> j.status.Running?)
      && (j.completedAt.Some? <==> Terminal(j))
      && id in w.waitingClaims && w.waitingClaims[id] <= j.maxAttempts
  {
    if |es| > 0 {
      EveryRunKeepsInv(es[..|es| - 1]);
      StepKeepsInv(Run(INIT, es[..|es| - 1]), es[|es| - 1]);
    }
    var w := Run(INIT, es);
    assert forall id :: id in w.jobs ==> RowOk(w.jobs[id]);
  }

  /** A row's key and limit are set once. */
  lemma RowsKeepKeys(w: World, e: Event, j: nat)
    requires j in w.jobs
    ensures
      var v := Step(w, e);
      j in v.jobs && v.jobs[j].key == w.jobs[j].key && v.jobs[j].maxAttempts == w.jobs[j].maxAttempts
  {}

  lemma NewJobIsCreated(w: World, e: Event, j: nat)
    requires j !in w.jobs && j in Step(w, e).jobs
    ensures e.Create? && e.id == j && Step(w, e).jobs[j] == NewRow(e.key, e.maxAttempts, e.availableAt)
  {}

  /** How many outside calls the attempts of one job have made. */
  function CallCount(calls: seq<Ticket>, id: nat): nat {
    if |calls| == 0 then 0
    else CallCount(calls[..|calls| - 1], id) + if calls[|calls| - 1].job == id then 1 else 0
  }

  function Numbers(calls: seq<Ticket>, id: nat): set<nat> {
    set i | 0 <= i < |calls| && calls[i].job == id :: calls[i].number
  }

  lemma NumbersSnoc(calls: seq<Ticket>, last: Ticket, id: nat)
    ensures Numbers(calls + [last], id) == Numbers(calls, id) + if last.job == id then {last.number} else {}
  {
    var all := calls + [last];
    forall i | 0 <= i < |calls| && calls[i].job == id
      ensures calls[i].number in Numbers(all, id)
    {
      assert all[i] == calls[i];
    }
    assert last.job == id ==> all[|calls|].number in Numbers(all, id);
  }

  lemma LastIsNew(rest: seq<Ticket>, last: Ticket)
    requires NoRepeats(rest + [last])
    ensures NoRepeats(rest) && last.number !in Numbers(rest, last.job)
  {
    var calls := rest + [last];
    forall i | 0 <= i < |rest|
      ensures rest[i] != last
    {
      assert calls[i] != calls[|rest|];
    }
    forall i, k | 0 <= i < k < |rest|
      ensures rest[i] != rest[k]
    {
      assert calls[i] != calls[k];
    }
  }

  lemma {:induction false} CountIsNumbers(calls: seq<Ticket>, id: nat)
    requires NoRepeats(calls)
    ensures |Numbers(calls, id)| == CallCount(calls, id)
  {
    if |calls| > 0 {
      var rest, last := calls[..|calls| - 1], calls[|calls| - 1];
      assert calls == rest + [last];
      LastIsNew(rest, last);
      CountIsNumbers(rest, id);
      NumbersSnoc(rest, last, id);
    }
  }

  lemma {:induction false} AtMostN(s: set<nat>, n: nat)
    requires forall x :: x in s ==> 1 <= x <= n
    ensures |s| <= n
  {
    if n == 0 {
      assert s == {};
    } else {
      AtMostN(s - {n}, n - 1);
    }
  }

  /** Outside calls per job, in every run: never more than the limit plus the number of
      times an expired RUNNING lease was taken over. */
  lemma CallsBounded(w: World, id: nat)
    requires Inv(w) && id in w.jobs
    ensures CallCount(w.calls, id) <= w.jobs[id].attempts
    ensures CallCount(w.calls, id) <= w.jobs[id].maxAttempts + w.reclaims[id]
  {
    CountIsNumbers(w.calls, id);
    AtMostN(Numbers(w.calls, id), w.jobs[id].attempts);
  }

  // ------------------------------------------------------------ lease exclusion

  /** Every live attempt is still inside its lease. */
  predicate Timely(w: World) { forall t :: t in w.live ==> w.now < w.live[t].expiresAt }

  predicate TimelyRun(es: seq<Event>) {
    Timely(Run(INIT, es)) && (|es| > 0 ==> TimelyRun(es[..|es| - 1]))
  }

  /** A live attempt is the newest claim of its job and holds the job's lease. */
  predicate HoldsLease(w: World, t: Ticket) {
    && Owns(w, t)
    && w.jobs[t.job].leaseExpiresAt == Some(w.live[t].expiresAt)
    && t.number == w.jobs[t.job].attempts
  }

  predicate Exclusive(w: World) { forall t :: t in w.live ==> HoldsLease(w, t) }

  lemma AtMostOneLive(w: World, a: Ticket, b: Ticket)
    requires Exclusive(w) && a in w.live && b in w.live && a.job == b.job
    ensures a == b
  {
    assert HoldsLease(w, a) && HoldsLease(w, b);
  }

  lemma StepKeepsHold(w: World, e: Event, t: Ticket)
    requires Exclusive(w) && Timely(w) && t in w.live && t in Step(w, e).live
    ensures HoldsLease(Step(w, e), t)
  {
    assert HoldsLease(w, t);
    match e {
      case Commit(u) => if u in w.live && u.job == t.job { AtMostOneLive(w, t, u); }
      case RecordFailure(u, _) => if u in w.live && u.job == t.job { AtMostOneLive(w, t, u); }
      case Claim(id, worker, lease) => assert id == t.job ==> Step(w, e) == w;
      case Recover => assert !LeaseExpired(w.jobs[t.job], w.now);
      case _ =>
    }
  }

  lemma StepKeepsExclusive(w: World, e: Event)
    requires Exclusive(w) && Timely(w)
    ensures Exclusive(Step(w, e))
  {
    var v := Step(w, e);
    forall t | t in v.live
      ensures HoldsLease(v, t)
    {
      if t in w.live {
        StepKeepsHold(w, e, t);
      } else {
        assert e.Claim? && t == Ticket(e.job, v.jobs[e.job].attempts);
      }
    }
  }

  lemma StepKeepsTerminal(w: World, e: Event, id: nat)
    requires Exclusive(w) && Timely(w)
    requires id in w.jobs && Terminal(w.jobs[id])
    ensures id in Step(w, e).jobs && Step(w, e).jobs[id] == w.jobs[id]
  {
    if (e.Commit? || e.RecordFailure?) && Step(w, e) != w {
      assert HoldsLease(w, e.ticket);
    }
  }

  /** At most one attempt per job is live at any time, for any workers and any interleaving,
      when every attempt ends before its lease does. */
  lemma {:induction false} LeaseExclusion(es: seq<Event>)
    requires TimelyRun(es)
    ensures Exclusive(Run(INIT, es))
    ensures forall a, b :: a in Run(INIT, es).live && b in Run(INIT, es).live && a.job == b.job ==> a == b
  {
    var w := Run(INIT, es);
    if |es| > 0 {
      var p := es[..|es| - 1];
      LeaseExclusion(p);
      EveryRunKeepsInv(p);
      StepKeepsExclusive(Run(INIT, p), es[|es| - 1]);
    }
    forall a, b | a in w.live && b in w.live && a.job == b.job
      ensures a == b
    {
      AtMostOneLive(w, a, b);
    }
  }

  /** SUCCEEDED and FAILED are final in timely runs: the row never changes again. */
  lemma {:induction false} TerminalIsFinal(es: seq<Event>, k: nat, id: nat)
    requires TimelyRun(es) && k <= |es|
    requires id in Run(INIT, es[..k]).jobs && Terminal(Run(INIT, es[..k]).jobs[id])
    ensures id in Run(INIT, es).jobs && Run(INIT, es).jobs[id] == Run(INIT, es[..k]).jobs[id]
  {
    if k == |es| {
      assert es[..k] == es;
    } else {
      var p := es[..|es| - 1];
      assert p[..k] == es[..k];
      TerminalIsFinal(p, k, id);
      LeaseExclusion(p);
      EveryRunKeepsInv(p);
      StepKeepsTerminal(Run(INIT, p), es[|es| - 1], id);
    }
  }

  /** No live attempt works on the job. */
  predicate Idle(w: World, j: nat) { forall t :: t in w.live ==> t.job != j }

  lemma SettledStep(w: World, e: Event, j: nat)
    requires j in w.jobs && Terminal(w.jobs[j]) && Idle(w, j)
    ensures
      var v := Step(w, e);
      j in v.jobs && v.jobs[j] == w.jobs[j] && Idle(v, j) && CallCount(v.calls, j) == CallCount(w.calls, j)
  {
    var v := Step(w, e);
    if e.Call? && v != w {
      assert v.calls[..|v.calls| - 1] == w.calls;
    }
  }

  /** A finished job nobody works on never changes again, whatever happens, and no attempt
      of it calls out again: no timing hypothesis is needed. */
  lemma {:induction false} SettledJobStays(w: World, es: seq<Event>, j: nat)
    requires j in w.jobs && Terminal(w.jobs[j]) && Idle(w, j)
    ensures
      var v := Run(w, es);
      j in v.jobs && v.jobs[j] == w.jobs[j] && Idle(v, j) && CallCount(v.calls, j) == CallCount(w.calls, j)
  {
    if |es| > 0 {
      SettledJobStays(w, es[..|es| - 1], j);
      SettledStep(Run(w, es[..|es| - 1]), es[|es| - 1], j);
    }
  }

  /** A time later than the present and than the row's completion. */
  function Later(w: World, j: Job): int {
    1 + if j.completedAt.Some? && j.completedAt.value > w.now then j.completedAt.value else w.now
  }

  /** A live attempt of a finished job can still rewrite its row: it fails, and records that later. */
  lemma LiveAttemptRewrites(w: World, t: Ticket)
    requires t in w.live && t.job in w.jobs && Terminal(w.jobs[t.job])
    ensures
      var v := Step(Step(Step(w, Tick(Later(w, w.jobs[t.job]))), Fail(t, false)), RecordFailure(t, 0));
      t.job in v.jobs && v.jobs[t.job] != w.jobs[t.job]
  {
    var later := Step(w, Tick(Later(w, w.jobs[t.job])));
    var failing := Step(later, Fail(t, false));
    assert t in failing.live && failing.live[t].phase.Failing? && failing.jobs == w.jobs;
  }

  lemma RunOfThree(w: World, a: Event, b: Event, c: Event)
    ensures Run(w, [a, b, c]) == Step(Step(Step(w, a), b), c)
  {
    var es := [a, b, c];
    assert es[..0] == [] && es[..3] == es;
    RunSnoc(w, es, 0);
    RunSnoc(w, es, 1);
    RunSnoc(w, es, 2);
  }

  predicate Kept(w: World, v: World, j: nat)
    requires j in w.jobs
  {
    j in v.jobs && v.jobs[j] == w.jobs[j]
  }

  /** Exactly when a SUCCEEDED or FAILED row is final: no attempt of its job is live any more. */
  lemma FinalIffIdle(w: World, j: nat)
    requires j in w.jobs && Terminal(w.jobs[j])
    ensures (forall es :: Kept(w, Run(w, es), j)) <==> Idle(w, j)
  {
    if Idle(w, j) {
      forall es
        ensures Kept(w, Run(w, es), j)
      {
        SettledJobStays(w, es, j);
      }
    } else {
      var t :| t in w.live && t.job == j;
      var a, b, c := Tick(Later(w, w.jobs[j])), Fail(t, false), RecordFailure(t, 0);
      LiveAttemptRewrites(w, t);
      RunOfThree(w, a, b, c);
      assert !Kept(w, Run(w, [a, b, c]), j);
    }
  }

  /** The timing hypothesis is exact: from an exclusive state, a claim of a job with a live
      attempt starts a second one precisely when the first has outlived its lease. */
  lemma LatenessBreaksExclusion(w: World, t: Ticket, worker: nat, lease: int)
    requires Inv(w) && Exclusive(w) && t in w.live
    ensures
      var v := Step(w, Claim(t.job, worker, lease));
      (exists u :: u in v.live && u != t && u.job == t.job) <==> w.live[t].expiresAt <= w.now
  {
    assert HoldsLease(w, t);
    var v := Step(w, Claim(t.job, worker, lease));
    if w.live[t].expiresAt <= w.now {
      var u := Ticket(t.job, w.jobs[t.job].attempts + 1);
      assert u in v.live && u != t;
    } else {
      assert v == w;
      forall u | u in v.live && u.job == t.job
        ensures u == t
      {
        AtMostOneLive(w, u, t);
      }
    }
  }

  // ------------------------------------------------------------ what single moves do

  /** An attempt gets into its transaction exactly when its job is still RUNNING under its worker's name;
      otherwise it ends without a trace. */
  lemma BeginIff(w: World, t: Ticket)
    requires t in w.live && w.live[t].phase.Claimed? && t.job in w.jobs
    ensures
      var v, j := Step(w, Begin(t)), w.jobs[t.job];
      && (t in v.live <==> j.status == Running && j.leaseOwner == Some(w.live[t].worker))
      && (t in v.live ==> v.live[t] == w.live[t].(phase := Executing(false)))
      && v.live - {t} == w.live - {t} && v.jobs == w.jobs && v.calls == w.calls
  {}

  /** The outside call is logged once per attempt, whatever becomes of the attempt. */
  lemma CallIsLogged(w: World, t: Ticket)
    requires t in w.live && w.live[t].phase == Executing(false)
    ensures
      var v := Step(w, Call(t));
      v.calls == w.calls + [t] && t in v.live && v.live[t].phase == Executing(true) && Step(v, Call(t)) == v
  {}

  /** A failing attempt can no longer commit, and its record ends it. */
  lemma FailureEndsAttempt(w: World, t: Ticket, retry: bool, backoff: int)
    requires t in w.live && !w.live[t].phase.Failing? && t.job in w.jobs
    ensures
      var v := Step(w, Fail(t, retry));
      var r := Step(v, RecordFailure(t, backoff));
      && Step(v, Commit(t)) == v && v.jobs == w.jobs && v.calls == w.calls
      && r.live == w.live - {t} && r.jobs == w.jobs[t.job := FailedRow(w.jobs[t.job], retry, w.now, backoff)]
  {
    var v := Step(w, Fail(t, retry));
    assert v.live - {t} == w.live - {t};
  }

  /** A commit marks the job SUCCEEDED now and ends the attempt. */
  lemma CommitEndsAttempt(w: World, t: Ticket)
    requires t in w.live && w.live[t].phase.Executing? && t.job in w.jobs
    ensures
      var v := Step(w, Commit(t));
      && v.live == w.live - {t} && t.job in v.jobs && v.jobs == w.jobs[t.job := v.jobs[t.job]]
      && v.jobs[t.job].status == Succeeded && v.jobs[t.job].completedAt == Some(w.now)
  {}

  /** A crash before the limit is not the end: once the lease is over the recovery makes the job due, and
      whoever claims it next starts the next attempt. */
  lemma CrashIsRetried(w: World, t: Ticket, at: int, worker: nat, lease: int)
    requires t in w.live && HoldsLease(w, t) && w.now <= at && w.live[t].expiresAt <= at
    requires w.jobs[t.job].attempts < w.jobs[t.job].maxAttempts
    ensures
      var r := Step(Step(Step(w, Crash(t)), Tick(at)), Recover);
      var c := Step(r, Claim(t.job, worker, lease));
      && t !in r.live && t.job in r.jobs && r.jobs[t.job].status == RetryWait && r.jobs[t.job].availableAt == at
      && t.job in c.jobs && c.jobs[t.job].status == Running && c.jobs[t.job].leaseOwner == Some(worker)
      && c.jobs[t.job].attempts == w.jobs[t.job].attempts + 1
      && Ticket(t.job, w.jobs[t.job].attempts + 1) in c.live
  {
    var expired := Step(Step(w, Crash(t)), Tick(at));
    assert expired.jobs == w.jobs && expired.now == at && LeaseExpired(expired.jobs[t.job], at);
  }

  /** Worker 1 outlives its lease, worker 2 takes the job over and succeeds beyond the attempt
      limit, and worker 1's late failure record turns SUCCEEDED into FAILED. */
  const LATE_FAILURE: seq<Event> := [
    Create(7, OtherKey(0), 1, 0), Claim(7, 1, 60), Begin(Ticket(7, 1)), Fail(Ticket(7, 1), true),
    Tick(60), Claim(7, 2, 60), Begin(Ticket(7, 2)), Commit(Ticket(7, 2)),
    RecordFailure(Ticket(7, 1), 60)]

  lemma RunSnoc(w: World, es: seq<Event>, k: nat)
    requires k < |es|
    ensures Run(w, es[..k + 1]) == Step(Run(w, es[..k]), es[k])
  {
    assert es[..k + 1][..k] == es[..k];
  }

  lemma LateFailureFirstHalf()
    ensures
      var w := Run(INIT, LATE_FAILURE[..5]);
      && w.now == 60
      && w.live == map[Ticket(7, 1) := Attempt(1, 60, Failing(true))]
      && w.jobs == map[7 := Job(OtherKey(0), Running, 1, 1, 0, Some(1), Some(60), None)]
  {
    var es := LATE_FAILURE;
    assert Run(INIT, es[..0]) == INIT;
    RunSnoc(INIT, es, 0);
    assert Run(INIT, es[..1]).jobs == map[7 := NewRow(OtherKey(0), 1, 0)];
    RunSnoc(INIT, es, 1);
    assert Run(INIT, es[..2]).live == map[Ticket(7, 1) := Attempt(1, 60, Claimed)];
    RunSnoc(INIT, es, 2);
    RunSnoc(INIT, es, 3);
    RunSnoc(INIT, es, 4);
  }

  /** From the expired lease: takeover, success, late failure record. */
  lemma Takeover(w: World)
    requires w.now == 60 && w.live == map[Ticket(7, 1) := Attempt(1, 60, Failing(true))]
    requires w.jobs == map[7 := Job(OtherKey(0), Running, 1, 1, 0, Some(1), Some(60), None)]
    ensures
      var before := Step(Step(Step(w, Claim(7, 2, 60)), Begin(Ticket(7, 2))), Commit(Ticket(7, 2)));
      var after := Step(before, RecordFailure(Ticket(7, 1), 60));
      && 7 in before.jobs && before.jobs[7].status.Succeeded? && before.jobs[7].attempts == 2
      && before.jobs[7].maxAttempts == 1 && 7 in after.jobs && after.jobs[7].status.Failed?
  {
    var w1 := Step(w, Claim(7, 2, 60));
    assert w1.jobs[7] == Job(OtherKey(0), Running, 2, 1, 0, Some(2), Some(120), None);
    assert w1.live[Ticket(7, 2)] == Attempt(2, 120, Claimed);
    assert w1.live[Ticket(7, 1)] == Attempt(1, 60, Failing(true));
    var w2 := Step(w1, Begin(Ticket(7, 2)));
    assert w2.live[Ticket(7, 2)] == Attempt(2, 120, Executing(false)) && w2.jobs == w1.jobs;
    var w3 := Step(w2, Commit(Ticket(7, 2)));
    assert w3.live[Ticket(7, 1)] == Attempt(1, 60, Failing(true));
  }

  lemma LateFailureStates()
    ensures
      var before, after := Run(INIT, LATE_FAILURE[..8]), Run(INIT, LATE_FAILURE[..9]);
      && 7 in before.jobs && before.jobs[7].status.Succeeded? && before.jobs[7].attempts == 2
      && before.jobs[7].maxAttempts == 1 && 7 in after.jobs && after.jobs[7].status.Failed?
  {
    LateFailureFirstHalf();
    var w := Run(INIT, LATE_FAILURE[..5]);
    Takeover(w);
    RunSnoc(INIT, LATE_FAILURE, 5);
    RunSnoc(INIT, LATE_FAILURE, 6);
    RunSnoc(INIT, LATE_FAILURE, 7);
    RunSnoc(INIT, LATE_FAILURE, 8);
  }

  lemma LateFailureOverwritesSuccess()
    ensures
      var before, after := Run(INIT, LATE_FAILURE[..8]), Run(INIT, LATE_FAILURE);
      && 7 in before.jobs && before.jobs[7].status.Succeeded? && before.jobs[7].attempts > before.jobs[7].maxAttempts
      && 7 in after.jobs && after.jobs[7].status.Failed?
      && !TimelyRun(LATE_FAILURE)
  {
    LateFailureStates();
    assert LATE_FAILURE[..9] == LATE_FAILURE;
    if TimelyRun(LATE_FAILURE) {
      TerminalIsFinal(LATE_FAILURE, 8, 7);
    }
  }
}
