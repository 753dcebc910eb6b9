/**
 Whole runs from the empty store: a draft produced, approved, published and measured; and two runs
 in which overlapping attempts give one decision two publications or two results.
 */
module FullRuns {
  import opened Basics
  import opened Jobs
  import opened Publishing
  import opened Provenance
  import opened Outcomes
  import opened OneOutcome
  import opened Overlap
  import opened PublishPath
  import JR = JobRuns
  import PW = ProductionWorkflow
  import PP = ProductionPath
  import C = Checkpoints

  lemma {:induction false} RunKeepsInv(s: Store, es: seq<Event>)
    requires Inv(s)
    ensures Inv(Run(s, es))
  {
    if |es| > 0 {
      RunKeepsInv(s, es[..|es| - 1]);
      StepKeepsInv(Run(s, es[..|es| - 1]), es[|es| - 1]);
    }
  }

  // ------------------------------------------------------------ up to a READY workflow

  function Productions(wf: nat, pes: seq<PW.Event>): (es: seq<Event>)
    ensures |es| == |pes|
  {
    seq(|pes|, i requires 0 <= i < |pes| => Produce(wf, pes[i]))
  }

  lemma {:induction false} ProductionsRun(s: Store, wf: nat, pes: seq<PW.Event>)
    requires wf in s.lines
    ensures Run(s, Productions(wf, pes)) ==
      s.(lines := s.lines[wf := s.lines[wf].(flow := PW.Run(s.lines[wf].flow, pes))])
  {
    if |pes| == 0 {
      assert s.lines[wf := s.lines[wf].(flow := s.lines[wf].flow)] == s.lines;
    } else {
      var front := pes[..|pes| - 1];
      ProductionsRun(s, wf, front);
      var es := Productions(wf, pes);
      assert es[..|pes| - 1] == Productions(wf, front);
      ProduceOnce(Run(s, Productions(wf, front)), wf, pes[|pes| - 1]);
    }
  }

  lemma ProduceOnce(s: Store, wf: nat, e: PW.Event)
    ensures Step(s, Produce(wf, e)) == ProduceStep(s, wf, e)
  {}

  const FIRST := Account(true, true, 11)
  const SECOND := Account(true, true, 12)

  /** Decision 1 with an experiment and a checkpoint, owner 9, two accounts, workflow 1. */
  function Opening(spec: C.Spec): seq<Event> {
    [NewDecision(1, Some(true)), Checkpoint(1, spec), SetOwner(9, true), Register(1, FIRST), Register(2, SECOND),
     StartProduction(1, 1, 0, {})]
  }

  function Opened(spec: C.Spec, flow: PW.Workflow): Store {
    INIT.(decisions := map[1 := Decision(Some(Experiment(DRAFT, true)))], checkpoints := map[1 := spec], owners := {9},
          accounts := map[1 := FIRST, 2 := SECOND], lines := map[1 := Line(1, flow)])
  }

  lemma FirstThree(spec: C.Spec)
    ensures Run(INIT, Opening(spec)[..3]) ==
      INIT.(decisions := map[1 := Decision(Some(Experiment(DRAFT, true)))], checkpoints := map[1 := spec],
        owners := {9})
  {
    var es := Opening(spec);
    assert es[..0] == [];
    RunPrefix(INIT, es, 0);
    RunPrefix(INIT, es, 1);
    RunPrefix(INIT, es, 2);
  }

  lemma OpeningRun(spec: C.Spec)
    ensures Run(INIT, Opening(spec)) == Opened(spec, PW.Started(0, {}))
  {
    var es, s := Opening(spec), Run(INIT, Opening(spec)[..3]);
    FirstThree(spec);
    RegisterBoth(s);
    RunConcat(INIT, es[..3], [es[3], es[4]]);
    assert es[..5] == es[..3] + [es[3], es[4]];
    RunPrefix(INIT, es, 5);
    assert es[..6] == es;
  }

  lemma RegisterBoth(s: Store)
    requires s.accounts == map[]
    ensures Run(s, [Register(1, FIRST), Register(2, SECOND)]) == s.(accounts := map[1 := FIRST, 2 := SECOND])
  {
    var one := s.(accounts := map[1 := FIRST]);
    assert s.accounts[1 := FIRST] == map[1 := FIRST];
    RunTwo(s, Register(1, FIRST), Register(2, SECOND), one, s.(accounts := map[1 := FIRST, 2 := SECOND]));
  }

  function Making(d: PW.Draft): seq<PW.Event> { PP.Path(d, 7) + [PW.AdvanceJob(true)] }

  /** The run up to the READY workflow. */
  function Preparation(d: PW.Draft, spec: C.Spec): seq<Event> { Opening(spec) + Productions(1, Making(d)) }

  function Prepared(d: PW.Draft, spec: C.Spec): Store {
    Opened(spec, PW.Run(PW.Started(0, {}), Making(d)))
  }

  lemma PreparationRun(d: PW.Draft, spec: C.Spec)
    ensures Run(INIT, Preparation(d, spec)) == Prepared(d, spec)
  {
    OpeningRun(spec);
    RunConcat(INIT, Opening(spec), Productions(1, Making(d)));
    ProductionsRun(Opened(spec, PW.Started(0, {})), 1, Making(d));
    var v := Run(INIT, Preparation(d, spec));
    assert v.lines == Prepared(d, spec).lines;
  }

  /** A draft that nothing stands against and Telegram takes. */
  predicate Publishable(d: PW.Draft) { PP.Clean(d, {}) && 1 <= |d.body| <= 4096 }

  lemma PreparedIsReady(d: PW.Draft, spec: C.Spec, account: nat, m: Plot)
    requires Publishable(d) && account in {1, 2} && m.user == 9
    ensures Ready(Prepared(d, spec), 1, 1, account, m) && Body(Prepared(d, spec), 1, 1) == d.body
  {
    PP.CleanDraftGetsReady(0, {}, d);
  }

  lemma PreparedIsSound(d: PW.Draft, spec: C.Spec)
    ensures Inv(Prepared(d, spec))
  {
    PreparationRun(d, spec);
    EveryRunKeepsInv(Preparation(d, spec));
  }

  // ------------------------------------------------------------ one publication

  const ONE := Plot(1, 1, 1, 1, 9, 1, 60)
  const TWO := Plot(2, 2, 2, 2, 9, 2, 60)

  function Publication1(d: PW.Draft, spec: C.Spec): seq<Event> { Preparation(d, spec) + Path(1, 1, ONE) }

  /** From the empty store to a message: every publishable draft can be produced, approved and sent, so
      what is proved of every text sent is proved of something. */
  lemma ADraftIsPublished(d: PW.Draft, spec: C.Spec)
    requires Publishable(d)
    ensures
      var s := Run(INIT, Publication1(d, spec));
      && s.sent == [Sent(JR.Ticket(1, 1), 1, 1, d.body, 11)] && s.publications == [Publication(1, 1, 1)]
      && Governed(s, 1) && StatusOf(s, 1).RUNNING? && s.checkpoints == map[1 := spec]
      && s.metrics == map[] && s.pending == map[] && s.results == [] && s.learnings == []
  {
    PreparationRun(d, spec);
    PreparedIsReady(d, spec, 1, ONE);
    PreparedIsSound(d, spec);
    RunConcat(INIT, Preparation(d, spec), Path(1, 1, ONE));
    GovernedPathPublishes(Prepared(d, spec), 1, 1, 1, ONE);
  }

  // ------------------------------------------------------------ two results

  /** An early, partial reading and the complete one. */
  const EARLY := C.Reading(None, C.PARTIAL, C.PARTLY)
  const LATE := C.Complete(0)

  const R1 := ExperimentResult(1, 1, C.INSUFFICIENT_DATA)
  const R2 := ExperimentResult(2, 1, C.FAILURE)

  /** Both metric versions are read while the experiment is RUNNING, then both are committed. */
  const READINGS: seq<Event> := [MeasureMetric(1, 0, EARLY), MeasureMetric(2, 0, LATE), ReadMetric(1, 1),
    ReadMetric(2, 2)]
  const VERDICTS: seq<Event> := [CommitMetric(1), CommitMetric(2), LearnFrom(0), LearnFrom(1)]

  /** One publication of decision 1, measured by nobody yet. */
  predicate Fresh(s: Store, spec: C.Spec) {
    && |s.publications| == 1 && s.publications[0].decision == 1 && Governed(s, 1) && StatusOf(s, 1).RUNNING?
    && s.checkpoints == map[1 := spec] && s.metrics == map[] && s.pending == map[] && s.results == []
       && s.learnings == []
  }

  lemma BothMeasured(s: Store, spec: C.Spec)
    requires Fresh(s, spec)
    ensures Run(s, READINGS[..2]) == s.(metrics := map[1 := Metric(0, 1, spec, EARLY), 2 := Metric(0, 1, spec, LATE)])
  {
    var one := s.(metrics := map[1 := Metric(0, 1, spec, EARLY)]);
    assert s.metrics[1 := Metric(0, 1, spec, EARLY)] == map[1 := Metric(0, 1, spec, EARLY)];
    assert Measure(s, 1, 0, EARLY) == one;
    var two := s.(metrics := map[1 := Metric(0, 1, spec, EARLY), 2 := Metric(0, 1, spec, LATE)]);
    assert Measure(one, 2, 0, LATE) == two;
    RunTwo(s, READINGS[0], READINGS[1], one, two);
    assert READINGS[..2] == [READINGS[0], READINGS[1]];
  }

  lemma BothRead(s: Store, spec: C.Spec)
    requires C.Accepted(spec) && Governed(s, 1) && StatusOf(s, 1).RUNNING? && s.checkpoints == map[1 := spec]
    requires s.metrics == map[1 := Metric(0, 1, spec, EARLY), 2 := Metric(0, 1, spec, LATE)]
    requires s.pending == map[] && s.results == []
    ensures Run(s, READINGS[2..]) == s.(pending := map[1 := R1, 2 := R2])
  {
    C.CountsSplit(spec, 0);
    assert ResultFor(s, 1) == R1;
    var one := s.(pending := map[1 := R1]);
    assert s.pending[1 := R1] == map[1 := R1];
    assert ReadCheckpoint(s, 1, 1) == one;
    assert MayInterpret(one, 2) && ResultFor(one, 2) == R2;
    var two := s.(pending := map[1 := R1, 2 := R2]);
    assert ReadCheckpoint(one, 2, 2) == two;
    RunTwo(s, READINGS[2], READINGS[3], one, two);
    assert READINGS[2..] == [READINGS[2], READINGS[3]];
  }

  lemma BothInterpreted(s: Store, spec: C.Spec)
    requires Fresh(s, spec) && C.Accepted(spec)
    ensures
      var v := Run(s, READINGS);
      && v.pending == map[1 := R1, 2 := R2] && v.results == [] && v.learnings == []
      && v.publications == s.publications && Governed(v, 1)
  {
    BothMeasured(s, spec);
    BothRead(Run(s, READINGS[..2]), spec);
    RunConcat(s, READINGS[..2], READINGS[2..]);
    assert READINGS == READINGS[..2] + READINGS[2..];
  }

  lemma CommitKeepsGoverned(s: Store, reader: nat, d: nat)
    requires Governed(s, d)
    ensures Governed(CommitResult(s, reader), d)
  {}

  lemma CommitBoth(s: Store)
    requires s.pending == map[1 := R1, 2 := R2] && s.results == [] && Governed(s, 1)
    ensures
      var v := CommitResult(CommitResult(s, 1), 2);
      v.results == [R1, R2] && v.learnings == s.learnings && v.publications == s.publications && Governed(v, 1)
  {
    assert s.pending[1] == R1 && s.pending[2] == R2;
    OverlapDecidesTwice(s, 1, 2, 1);
    assert [] + [R1] + [R2] == [R1, R2];
    CommitKeepsGoverned(s, 1, 1);
    CommitKeepsGoverned(CommitResult(s, 1), 2, 1);
  }

  lemma BothCommitted(s: Store)
    requires s.pending == map[1 := R1, 2 := R2] && s.results == [] && Governed(s, 1)
    ensures
      var v := Run(s, VERDICTS[..2]);
      v.results == [R1, R2] && v.learnings == s.learnings && v.publications == s.publications && Governed(v, 1)
  {
    CommitBoth(s);
    CommitStep(s, 1);
    CommitStep(CommitResult(s, 1), 2);
    RunTwo(s, VERDICTS[0], VERDICTS[1], CommitResult(s, 1), CommitResult(CommitResult(s, 1), 2));
    assert VERDICTS[..2] == [VERDICTS[0], VERDICTS[1]];
  }

  lemma CommitStep(s: Store, reader: nat)
    ensures Step(s, CommitMetric(reader)) == CommitResult(s, reader)
  {}

  lemma LearnNext(s: Store, i: nat)
    requires i == |s.learnings| && i < |s.results| && forall k :: 0 <= k < i ==> s.learnings[k].result == k
    ensures Learn(s, i) == s.(learnings := s.learnings + [Learning(i, s.results[i].decision)])
  {}

  lemma BothLearned(s: Store)
    requires s.results == [R1, R2] && s.learnings == []
    ensures Run(s, VERDICTS[2..]) == s.(learnings := [Learning(0, 1), Learning(1, 1)])
  {
    LearnNext(s, 0);
    assert [] + [Learning(0, 1)] == [Learning(0, 1)];
    var one := s.(learnings := [Learning(0, 1)]);
    LearnNext(one, 1);
    assert [Learning(0, 1)] + [Learning(1, 1)] == [Learning(0, 1), Learning(1, 1)];
    LearnStep(s, 0);
    LearnStep(one, 1);
    RunTwo(s, VERDICTS[2], VERDICTS[3], one, s.(learnings := [Learning(0, 1), Learning(1, 1)]));
    assert VERDICTS[2..] == [VERDICTS[2], VERDICTS[3]];
  }

  lemma LearnStep(s: Store, i: nat)
    ensures Step(s, LearnFrom(i)) == Learn(s, i)
  {}

  lemma TwoVerdicts(s: Store)
    requires s.pending == map[1 := R1, 2 := R2] && s.results == [] && s.learnings == [] && Governed(s, 1)
    ensures
      var v := Run(s, VERDICTS);
      && v.results == [R1, R2] && v.learnings == [Learning(0, 1), Learning(1, 1)]
      && v.publications == s.publications && Governed(v, 1)
  {
    BothCommitted(s);
    BothLearned(Run(s, VERDICTS[..2]));
    RunConcat(s, VERDICTS[..2], VERDICTS[2..]);
    assert VERDICTS == VERDICTS[..2] + VERDICTS[2..];
  }

  /** A run from the empty store in which one publication is interpreted twice, with contradicting
      classes, and learned from twice: two interpretations overlap. */
  lemma OverlappingReadsGiveTwoResults(d: PW.Draft, spec: C.Spec)
    requires Publishable(d) && C.Accepted(spec)
    ensures
      var s := Run(INIT, Publication1(d, spec) + READINGS + VERDICTS);
      && Governed(s, 1) && s.results == [R1, R2] && s.learnings == [Learning(0, 1), Learning(1, 1)]
      && PublicationCount(s.publications, 1) == 1 && ResultCount(s.results, 1) == 2
         && LearningCount(s.learnings, 1) == 2
  {
    var es := Publication1(d, spec);
    var s := Run(INIT, es);
    ADraftIsPublished(d, spec);
    BothInterpreted(s, spec);
    TwoVerdicts(Run(s, READINGS));
    RunConcat(INIT, es, READINGS);
    RunConcat(INIT, es + READINGS, VERDICTS);
    CountTwo(s.publications[0]);
    assert s.publications == [s.publications[0]];
  }

  lemma CountTwo(q: Publication)
    requires q.decision == 1
    ensures PublicationCount([q], 1) == 1 && ResultCount([R1, R2], 1) == 2
    ensures LearningCount([Learning(0, 1), Learning(1, 1)], 1) == 2
  {
    ResultSnoc([], R1, 1);
    ResultSnoc([R1], R2, 1);
    assert [] + [R1] == [R1] && [R1] + [R2] == [R1, R2];
    var learnings := [Learning(0, 1), Learning(1, 1)];
    assert learnings[..1] == [learnings[0]] && [learnings[0]][..0] == [];
    assert [q][..0] == [];
  }

  // ------------------------------------------------------------ two publications

  /** Same clock, and the same row and attempt of t. */
  predicate Untouched(w: JR.World, v: JR.World, t: JR.Ticket) {
    && v.now == w.now && t.job in w.jobs && t.job in v.jobs && v.jobs[t.job] == w.jobs[t.job]
    && (t in v.live <==> t in w.live) && (t in w.live ==> v.live[t] == w.live[t])
  }

  lemma OtherTicket(w: JR.World, e: JR.Event, t: JR.Ticket)
    requires t.job in w.jobs && ((e.Claim? && e.job != t.job) || (e.Begin? && e.ticket.job != t.job))
    ensures Untouched(w, JR.Step(w, e), t)
  {}

  /** An attempt of one job leaves the attempts and rows of other jobs alone. */
  lemma OtherJobUntouched(w: JR.World, u: JR.Ticket, worker: nat, lease: int, t: JR.Ticket)
    requires t.job != u.job && t.job in w.jobs
    ensures Untouched(w, JR.Call1(JR.Step(JR.Step(w, JR.Claim(u.job, worker, lease)), JR.Begin(u)), u), t)
  {
    OtherTicket(w, JR.Claim(u.job, worker, lease), t);
    OtherTicket(JR.Step(w, JR.Claim(u.job, worker, lease)), JR.Begin(u), t);
  }

  lemma SentWorld(s: Store, u: JR.Ticket, worker: nat, lease: int)
    requires MaySend(Preflight(Begun(s, u, worker, lease), u), u)
    ensures Sent1(s, u, worker, lease).w ==
      JR.Call1(JR.Step(JR.Step(s.w, JR.Claim(u.job, worker, lease)), JR.Begin(u)), u)
  {
    WithWorldMoves(s, JR.Claim(u.job, worker, lease));
    WithWorldMoves(WithWorld(s, JR.Claim(u.job, worker, lease)), JR.Begin(u));
  }

  lemma OtherPlanKept(s: Store, u: JR.Ticket, worker: nat, lease: int, t: JR.Ticket)
    requires t.job != u.job && t in s.plans && t in s.w.live && s.w.live[t].phase.Executing? && t.job in s.w.jobs
    ensures
      var v := Sent1(s, u, worker, lease);
      t in v.plans && v.plans[t] == s.plans[t]
  {
    var claimed := WithWorld(s, JR.Claim(u.job, worker, lease));
    assert t in claimed.plans && t in claimed.w.live && claimed.w.live[t] == s.w.live[t];
    var begun := WithWorld(claimed, JR.Begin(u));
    assert t in begun.plans && begun.plans[t] == s.plans[t];
  }

  predicate Disjoint(a: Plot, b: Plot) {
    a.action != b.action && a.approval != b.approval && a.execution != b.execution && a.job != b.job
  }

  /** A proposal to one account does not stand in the way of one to another. */
  lemma StillReady(s: Store, wf: nat, version: nat, a: nat, m: Plot, b: nat, n: Plot)
    requires Ready(s, wf, version, a, m) && Ready(s, wf, version, b, n) && a != b && Disjoint(m, n)
    ensures Ready(Approved1(s, wf, version, a, m), wf, version, b, n)
  {}

  lemma FirstPlanStays(q: Store, wf: nat, version: nat, b: nat, n: Plot, x: nat)
    requires Ready(q, wf, version, b, n) && x in q.executions && q.executions[x].action in q.actions
    requires PlanFor(q, x).Go?
    ensures
      var v := Approved1(q, wf, version, b, n);
      && x in v.executions && v.executions[x].action in v.actions && PlanFor(v, x) == PlanFor(q, x)
  {
    var v := Approved1(q, wf, version, b, n);
    assert v.executions[x] == q.executions[x] && v.actions[q.executions[x].action] == q.actions[q.executions[x].action];
    assert HasPublication(v, x) == HasPublication(q, x);
    assert MayPublish(v, x);
  }

  /** The job of the first approval waits while the second one is given. */
  lemma FirstJobWaits(q: Store, wf: nat, version: nat, b: nat, n: Plot, j: nat)
    requires IsFinal(q, wf, version) && b in q.accounts && j in q.w.jobs && j != n.job
    ensures
      var v := Approved1(q, wf, version, b, n);
      && j in v.w.jobs && v.w.jobs[j] == q.w.jobs[j] && v.w.now == q.w.now && v.w.live == q.w.live && v.plans == q.plans
  {}

  lemma BothAsked(s: Store, wf: nat, version: nat, a: nat, m: Plot, b: nat, n: Plot)
    requires Inv(s) && Ready(s, wf, version, a, m) && Ready(s, wf, version, b, n) && a != b && Disjoint(m, n)
    ensures
      var q := Approved1(s, wf, version, a, m);
      IsFinal(q, wf, version) && b in q.accounts
        && Run(s, Ask(wf, a, m) + Ask(wf, b, n)) == Approved1(q, wf, version, b, n)
  {
    AskIsARun(s, wf, version, a, m);
    RunConcat(s, Ask(wf, a, m), Ask(wf, b, n));
    StillReady(s, wf, version, a, m, b, n);
    RunKeepsInv(s, Ask(wf, a, m));
    AskIsARun(Approved1(s, wf, version, a, m), wf, version, b, n);
  }

  /** A store in which the approved execution of m only waits for its attempt. */
  predicate Waiting1(s: Store, m: Plot) {
    && m.execution in s.executions && s.executions[m.execution].action in s.actions && PlanFor(s, m.execution).Go?
    && JR.Ticket(m.job, 1) !in s.w.live && JR.Ticket(m.job, 1) !in s.plans && m.job in s.w.jobs
    && s.w.jobs[m.job] == NewRow(PublishKey(m.execution), 1, s.w.now)
  }

  lemma BothWait(s: Store, wf: nat, version: nat, a: nat, m: Plot, b: nat, n: Plot)
    requires Inv(s) && Ready(s, wf, version, a, m) && Ready(s, wf, version, b, n) && a != b && Disjoint(m, n)
    ensures
      var q := Approved1(s, wf, version, a, m);
      && IsFinal(q, wf, version) && b in q.accounts
      && Waiting1(Approved1(q, wf, version, b, n), m) && Waiting1(Approved1(q, wf, version, b, n), n)
  {
    var q := Approved1(s, wf, version, a, m);
    StillReady(s, wf, version, a, m, b, n);
    AskIsARun(s, wf, version, a, m);
    RunKeepsInv(s, Ask(wf, a, m));
    PlanIsGo(s, wf, version, a, m);
    NewJobIsFresh(s, wf, version, a, m);
    FirstPlanStays(q, wf, version, b, n, m.execution);
    FirstJobWaits(q, wf, version, b, n, m.job);
    PlanIsGo(q, wf, version, b, n);
    NewJobIsFresh(q, wf, version, b, n);
  }

  lemma AttemptOf(s: Store, m: Plot)
    requires Waiting1(s, m)
    ensures
      var v, u := Run(s, Attempt(m)), JR.Ticket(m.job, 1);
      && Publishes(v, u, Published) && v.plans[u] == PlanFor(s, m.execution)
      && v == s.(w := v.w, plans := v.plans, sent := v.sent)
      && v.w == JR.Call1(JR.Step(JR.Step(s.w, JR.Claim(m.job, m.worker, m.lease)), JR.Begin(u)), u)
  {
    var u := JR.Ticket(m.job, 1);
    AttemptIsARun(s, m);
    AttemptPublishes(s, u, m.worker, m.lease, m.execution);
    var checked := Preflight(Begun(s, u, m.worker, m.lease), u);
    assert checked.sent == s.sent;
    assert MaySend(checked, u);
    SentWorld(s, u, m.worker, m.lease);
  }

  /** The second execution still waits after the first one's attempt has sent. */
  lemma OtherStillWaits(s: Store, m: Plot, n: Plot)
    requires Inv(s) && Waiting1(s, m) && Waiting1(s, n) && m.job != n.job
    ensures Waiting1(Run(s, Attempt(m)), n)
  {
    var v, t := Run(s, Attempt(m)), JR.Ticket(n.job, 1);
    AttemptOf(s, m);
    RunKeepsInv(s, Attempt(m));
    OtherJobUntouched(s.w, JR.Ticket(m.job, 1), m.worker, m.lease, t);
    PlanIgnoresWorld(s, v, n.execution);
    assert t in v.plans ==> PlanOk(v, t);
  }

  lemma FirstStillPublishes(s: Store, t: JR.Ticket, n: Plot)
    requires Waiting1(s, n) && Publishes(s, t, Published) && t.job != n.job
    ensures
      var v := Run(s, Attempt(n));
      Publishes(v, t, Published) && v.plans[t] == s.plans[t]
  {
    var v, u := Run(s, Attempt(n)), JR.Ticket(n.job, 1);
    AttemptOf(s, n);
    AttemptIsARun(s, n);
    OtherJobUntouched(s.w, u, n.worker, n.lease, t);
    OtherPlanKept(s, u, n.worker, n.lease, t);
  }

  /** Both executions have sent and neither has committed. */
  predicate BothInFlight(v: Store, m: Plot, n: Plot, d: nat) {
    var t, u := JR.Ticket(m.job, 1), JR.Ticket(n.job, 1);
    && Publishes(v, t, Published) && Publishes(v, u, Published) && v.plans[t].execution != v.plans[u].execution
    && InFlight(v, t, d) && InFlight(v, u, d)
  }

  lemma BothSend(s: Store, m: Plot, n: Plot, d: nat)
    requires Inv(s) && Waiting1(s, m) && Waiting1(s, n) && m.job != n.job && m.execution != n.execution
    requires s.actions[s.executions[m.execution].action].decision == d
    requires s.actions[s.executions[n.execution].action].decision == d
    ensures BothInFlight(Run(s, Attempt(m) + Attempt(n)), m, n, d)
  {
    var v := Run(s, Attempt(m));
    AttemptOf(s, m);
    OtherStillWaits(s, m, n);
    AttemptOf(v, n);
    FirstStillPublishes(v, JR.Ticket(m.job, 1), n);
    PlanIgnoresWorld(s, v, n.execution);
    RunConcat(s, Attempt(m), Attempt(n));
    GoNamesExecution(s, m.execution);
    GoNamesExecution(s, n.execution);
  }

  lemma GoNamesExecution(s: Store, x: nat)
    requires x in s.executions && s.executions[x].action in s.actions && PlanFor(s, x).Go?
    ensures PlanFor(s, x).execution == x && PlanFor(s, x).action == s.executions[x].action
  {}

  /** Events that neither publish nor measure nor decide. */
  predicate Plain(e: Event) { e.ProposeAction? || e.ApproveAction? || e.PreflightOf? || e.SendOf? || e.Runtime? }

  lemma PlainStep(s: Store, e: Event)
    requires Plain(e)
    ensures SameLearning(s, Step(s, e)) && SameOutcomes(s, Step(s, e))
  {
    UninvolvedFrame(s, e);
    if e.Runtime? {
      assert Step(s, e) == if Foreign(s, e.event) then WithWorld(s, e.event) else s;
    } else if e.ApproveAction? {
      assert Step(s, e) == Approve(s, e.action, e.user, e.approval, e.execution, e.job);
    }
  }

  predicate AllPlain(es: seq<Event>) { forall i :: 0 <= i < |es| ==> Plain(es[i]) }

  lemma OverlappingIsPlain(wf: nat, a: nat, m: Plot, b: nat, n: Plot)
    ensures AllPlain(Overlapping(wf, a, m, b, n))
  {
    assert AllPlain(Ask(wf, a, m)) && AllPlain(Ask(wf, b, n)) && AllPlain(Attempt(m)) && AllPlain(Attempt(n));
  }

  lemma {:induction false} PlainRun(s: Store, es: seq<Event>)
    requires AllPlain(es)
    ensures SameLearning(s, Run(s, es)) && SameOutcomes(s, Run(s, es))
  {
    if |es| > 0 {
      PlainRun(s, es[..|es| - 1]);
      PlainStep(Run(s, es[..|es| - 1]), es[|es| - 1]);
    }
  }

  function Overlapping(wf: nat, a: nat, m: Plot, b: nat, n: Plot): seq<Event> {
    Ask(wf, a, m) + Ask(wf, b, n) + (Attempt(m) + Attempt(n))
  }

  lemma DecisionOfBoth(s: Store, wf: nat, version: nat, a: nat, m: Plot, b: nat, n: Plot)
    requires Ready(s, wf, version, a, m) && Ready(s, wf, version, b, n) && a != b && Disjoint(m, n)
    ensures
      var q := Approved1(s, wf, version, a, m);
      && IsFinal(q, wf, version) && b in q.accounts
      && var v := Approved1(q, wf, version, b, n);
         && m.execution in v.executions && v.executions[m.execution].action == m.action && m.action in v.actions
         && n.execution in v.executions && v.executions[n.execution].action == n.action && n.action in v.actions
         && v.actions[m.action].decision == s.lines[wf].decision && v.actions[n.action].decision == s.lines[wf].decision
         && v.publications == s.publications
  {
    StillReady(s, wf, version, a, m, b, n);
  }

  /** Two accounts, two actions of one decision, two attempts: from any store with nothing in the way both
      executions come to be in flight together. */
  lemma OverlapIsReached(s: Store, wf: nat, version: nat, a: nat, m: Plot, b: nat, n: Plot)
    requires Inv(s) && Ready(s, wf, version, a, m) && Ready(s, wf, version, b, n) && a != b && Disjoint(m, n)
    ensures
      var v := Run(s, Overlapping(wf, a, m, b, n));
      Inv(v) && BothInFlight(v, m, n, s.lines[wf].decision) && v.publications == s.publications
  {
    var q := Approved1(s, wf, version, a, m);
    BothAsked(s, wf, version, a, m, b, n);
    BothWait(s, wf, version, a, m, b, n);
    DecisionOfBoth(s, wf, version, a, m, b, n);
    var asked := Approved1(q, wf, version, b, n);
    RunKeepsInv(s, Ask(wf, a, m) + Ask(wf, b, n));
    BothSend(asked, m, n, s.lines[wf].decision);
    RunConcat(s, Ask(wf, a, m) + Ask(wf, b, n), Attempt(m) + Attempt(n));
    RunKeepsInv(s, Overlapping(wf, a, m, b, n));
    OverlappingIsPlain(wf, a, m, b, n);
    PlainRun(s, Overlapping(wf, a, m, b, n));
  }

  lemma BothFinish(v: Store, m: Plot, n: Plot, d: nat)
    requires Inv(v) && BothInFlight(v, m, n, d)
    ensures
      var t, u := JR.Ticket(m.job, 1), JR.Ticket(n.job, 1);
      && Run(v, [FinishOf(t, Published), FinishOf(u, Published)]) == Finish(Finish(v, t, Published), u, Published)
      && PublicationCount(Finish(Finish(v, t, Published), u, Published).publications, d)
         == PublicationCount(v.publications, d) + 2
  {
    var t, u := JR.Ticket(m.job, 1), JR.Ticket(n.job, 1);
    FinishKeepsInv(v, t, Published);
    OverlapPublishesTwice(v, t, u, d);
    AttemptSteps(v, t);
    AttemptSteps(Finish(v, t, Published), u);
    RunTwo(v, FinishOf(t, Published), FinishOf(u, Published), Finish(v, t, Published),
           Finish(Finish(v, t, Published), u, Published));
  }

  /** Decision 1 is in DRAFT and nothing is measured. */
  predicate Unlearned(s: Store, spec: C.Spec) {
    && Governed(s, 1) && StatusOf(s, 1).DRAFT? && s.checkpoints == map[1 := spec]
    && s.metrics == map[] && s.pending == map[] && s.results == [] && s.learnings == []
  }

  lemma InFlightFromScratch(d: PW.Draft, spec: C.Spec)
    requires Publishable(d)
    ensures
      var v := Run(INIT, Preparation(d, spec) + Overlapping(1, 1, ONE, 2, TWO));
      Inv(v) && BothInFlight(v, ONE, TWO, 1) && v.publications == [] && Unlearned(v, spec)
  {
    PreparationRun(d, spec);
    PreparedIsReady(d, spec, 1, ONE);
    PreparedIsReady(d, spec, 2, TWO);
    PreparedIsSound(d, spec);
    OverlapIsReached(Prepared(d, spec), 1, 1, 1, ONE, 2, TWO);
    OverlappingIsPlain(1, 1, ONE, 2, TWO);
    PlainRun(Prepared(d, spec), Overlapping(1, 1, ONE, 2, TWO));
    RunConcat(INIT, Preparation(d, spec), Overlapping(1, 1, ONE, 2, TWO));
  }

  /** A run from the empty store in which one decision is published twice, on two accounts. */
  lemma OverlappingSendsGiveTwoPublications(d: PW.Draft, spec: C.Spec)
    requires Publishable(d)
    ensures
      var es := Preparation(d, spec) + Overlapping(1, 1, ONE, 2, TWO);
      var s := Run(INIT, es + [FinishOf(JR.Ticket(1, 1), Published), FinishOf(JR.Ticket(2, 1), Published)]);
      PublicationCount(s.publications, 1) == 2
  {
    var es := Preparation(d, spec) + Overlapping(1, 1, ONE, 2, TWO);
    InFlightFromScratch(d, spec);
    BothFinish(Run(INIT, es), ONE, TWO, 1);
    RunConcat(INIT, es, [FinishOf(JR.Ticket(1, 1), Published), FinishOf(JR.Ticket(2, 1), Published)]);
  }

  // ------------------------------------------------------------ a completed experiment set back

  const DECIDE: seq<Event> := [MeasureMetric(1, 0, EARLY), ReadMetric(1, 1), CommitMetric(1)]

  lemma DecidedOnce(s: Store, spec: C.Spec)
    requires Fresh(s, spec)
    ensures
      var v := Run(s, DECIDE);
      SamePipeline(s, v) && Governed(v, 1) && StatusOf(v, 1).COMPLETE? && v.results == [R1]
  {
    var m := Metric(0, 1, spec, EARLY);
    var one := s.(metrics := map[1 := m]);
    assert s.metrics[1 := m] == map[1 := m];
    assert Measure(s, 1, 0, EARLY) == one && ResultFor(one, 1) == R1;
    var two := one.(pending := map[1 := R1]);
    assert one.pending[1 := R1] == map[1 := R1];
    assert ReadCheckpoint(one, 1, 1) == two;
    RunTwo(s, DECIDE[0], DECIDE[1], one, two);
    CommitStep(two, 1);
    CommitEffect(two, 1, 1);
    RunConcat(s, [DECIDE[0], DECIDE[1]], [DECIDE[2]]);
    RunOne(two, DECIDE[2]);
    assert DECIDE == [DECIDE[0], DECIDE[1]] + [DECIDE[2]];
  }

  lemma StillToPublish(s: Store, v: Store, u: JR.Ticket, d: nat)
    requires SamePipeline(s, v) && Publishes(s, u, Published) && InFlight(s, u, d)
    ensures PublishesFor(v, FinishOf(u, Published), d)
  {}

  lemma ReopenedNow(es: seq<Event>, e: Event, d: nat)
    requires Reopens(Run(INIT, es), e, d)
    ensures Reopened(es + [e], d)
  {
    assert (es + [e])[..|es|] == es;
  }

  /** The first of two overlapping attempts commits. */
  lemma FirstFinish(v: Store, spec: C.Spec)
    requires Inv(v) && BothInFlight(v, ONE, TWO, 1) && v.publications == [] && Unlearned(v, spec)
    ensures
      var t, u := JR.Ticket(1, 1), JR.Ticket(2, 1);
      var m := Finish(v, t, Published);
      && Run(v, [FinishOf(t, Published)]) == m && Inv(m) && Fresh(m, spec)
      && Publishes(m, u, Published) && InFlight(m, u, 1)
  {
    var t, u := JR.Ticket(1, 1), JR.Ticket(2, 1);
    WhatPublishingDoes(v, t);
    FlightOfFinish(v, t, 1);
    FlightOfFinish(v, u, 1);
    OtherStillPublishes(v, t, u);
    OtherPlanSurvivesFinish(v, t, u);
    FinishPersists(v, t, Published);
    FinishKeepsInv(v, t, Published);
    RunOne(v, FinishOf(t, Published));
    AttemptSteps(v, t);
  }

  /** A run from the empty store in which the experiment is COMPLETE and a late commit of the second
      publication sets it back to RUNNING. */
  lemma LateCommitReopens(d: PW.Draft, spec: C.Spec)
    requires Publishable(d)
    ensures
      var es := Preparation(d, spec) + Overlapping(1, 1, ONE, 2, TWO) + [FinishOf(JR.Ticket(1, 1), Published)] + DECIDE;
      && Governed(Run(INIT, es), 1) && StatusOf(Run(INIT, es), 1).COMPLETE?
      && Reopened(es + [FinishOf(JR.Ticket(2, 1), Published)], 1)
  {
    var t, u := JR.Ticket(1, 1), JR.Ticket(2, 1);
    var flying := Preparation(d, spec) + Overlapping(1, 1, ONE, 2, TWO);
    var finished := flying + [FinishOf(t, Published)];
    var es := finished + DECIDE;
    InFlightFromScratch(d, spec);
    var v := Run(INIT, flying);
    FirstFinish(v, spec);
    RunConcat(INIT, flying, [FinishOf(t, Published)]);
    var m := Run(INIT, finished);
    DecidedOnce(m, spec);
    RunConcat(INIT, finished, DECIDE);
    StillToPublish(m, Run(m, DECIDE), u, 1);
    ReopenedNow(es, FinishOf(u, Published), 1);
  }
}
