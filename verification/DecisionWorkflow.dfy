/**
 The governed decision workflow (application/decision_workflow.py with the guarded advance of
 application/decision_governance.py): specialists, chief, seven controllers, bounded revisions,
 one final decision.

 Advance is one transaction: an error leaves the workflow as it was.
 */
module DecisionWorkflow {
  import opened Basics
  import opened RunTable
  import V = Verdicts

  const OUTPUT_ATTEMPTS := 3

  datatype Slot = Specialist(k: nat) | Chief(version: nat) | Controller(version: nat, controller: V.Controller)

  datatype Output =
    | SpecialistOutput
    | ChiefOutput(candidate: V.Candidate, worthWords: bool, actionBlank: bool)
    | ControllerOutput(controller: V.Controller, verdict: V.Verdict, requiredChanges: seq<string>,
                       missingInfoOnly: bool, hasRefs: bool)

  /** What a finished agent run leaves: nothing, or output with the verdict on its evidence refs. */
  datatype Answer = NoOutput | Answered(output: Output, refsOk: bool)

  datatype Status =
    | SnapshotReady | SpecialistsRunning | SpecialistsReady | ChiefRunning | DecisionCandidateReady
    | ControllersRunning | Blocked | RevisionRequired | CandidateAccepted | FinalDecisionMaterialized
    | AwaitingDecisionApproval | ApprovedForProduction | Escalated

  datatype CandidateStatus = UnderReview | NeedsRevision | CandidateBlocked | Materialized

  datatype Candidate = Candidate(
    version: nat, round: nat, body: V.Candidate, worthWords: bool, status: CandidateStatus, reviews: seq<V.Review>)

  type Rows = seq<Row<Slot, Output>>

  datatype Workflow = Workflow(
    status: Status,
    revisionCount: nat,
    maxRounds: nat,
    candidates: seq<Candidate>,
    rows: Rows,
    decisions: seq<nat>,
    changes: nat)

  function Started(maxRounds: nat): Workflow { Workflow(SnapshotReady, 0, maxRounds, [], [], [], 0) }

  const SPECIALISTS: seq<Slot> := [Specialist(0), Specialist(1), Specialist(2)]

  function ControllerSlots(version: nat): (slots: seq<Slot>)
    ensures |slots| == 7
    ensures forall i :: 0 <= i < 7 ==> slots[i] == Controller(version, V.REQUIRED[i])
  {
    seq(|V.REQUIRED|, i requires 0 <= i < |V.REQUIRED| => Controller(version, V.REQUIRED[i]))
  }

  // ------------------------------------------------------------ the transaction

  /** The _*_run_can_materialize tests. */
  predicate CanMaterialize(w: Workflow, slot: Slot, a: Answer) {
    && a.Answered? && a.refsOk
    && match slot
       case Specialist(_) => a.output.SpecialistOutput?
       case Chief(_) => a.output.ChiefOutput? && !a.output.actionBlank
       case Controller(v, c) =>
         && a.output.ControllerOutput? && a.output.controller == c
         && (c.Constitutional? && 1 <= v <= |w.candidates| && w.candidates[v - 1].worthWords ==>
               a.output.verdict.Block?)
         && (c.Evidence? ==> a.output.hasRefs)
  }

  function RunFinished(w: Workflow, i: nat, a: Answer): Workflow {
    if i >= |w.rows| || !w.rows[i].state.Pending? then w
    else w.(rows := Finish(w.rows, i, if CanMaterialize(w, w.rows[i].slot, a) then Usable(a.output) else Unusable))
  }

  function ReviewOf(version: nat, k: nat, o: Output): V.Review
    requires o.ControllerOutput? && k < |V.REQUIRED|
  {
    V.Review(7 * version + k, V.REQUIRED[k], o.verdict,
             if o.verdict.PassWithConditions? then o.requiredChanges else [], o.requiredChanges, o.missingInfoOnly)
  }

  function Reviews(rows: Rows, version: nat, n: nat): Result<seq<V.Review>>
    requires n <= |V.REQUIRED|
  {
    if n == 0 then Ok([])
    else
      var front := Reviews(rows, version, n - 1);
      var o := Newest(rows, Controller(version, V.REQUIRED[n - 1]));
      if front.Err? then front
      else if o.None? || !o.value.ControllerOutput? then Err(NotReady)
      else Ok(front.value + [ReviewOf(version, n - 1, o.value)])
  }

  function Moved(w: Workflow, status: Status): Workflow { w.(status := status, changes := w.changes + 1) }

  function ToChief(w: Workflow): Result<Workflow> {
    var r := EnsureSlot(w.rows, Chief(|w.candidates| + 1), OUTPUT_ATTEMPTS);
    if r.Err? then Err(r.error) else Ok(Moved(w.(rows := r.value), ChiefRunning))
  }

  function ToControllers(w: Workflow): Result<Workflow> {
    var version := |w.candidates| + 1;
    var o := Newest(w.rows, Chief(version));
    if o.None? || !o.value.ChiefOutput? then Err(NotReady)
    else
      var c := Candidate(version, w.revisionCount, o.value.candidate, o.value.worthWords, UnderReview, []);
      var r := EnsureAll(w.rows, ControllerSlots(version), OUTPUT_ATTEMPTS);
      if r.Err? then Err(r.error)
      else Ok(Moved(w.(candidates := w.candidates + [c], rows := r.value), ControllersRunning))
  }

  function WithLast(w: Workflow, status: CandidateStatus, reviews: seq<V.Review>): Workflow
    requires |w.candidates| > 0
  {
    var last := w.candidates[|w.candidates| - 1];
    w.(candidates := w.candidates[|w.candidates| - 1 := last.(status := status, reviews := reviews)])
  }

  function Concluded(w: Workflow, outcome: V.Verdict, reviews: seq<V.Review>): Result<Workflow>
    requires |w.candidates| > 0
  {
    match outcome
    case Block => Ok(Moved(WithLast(w, CandidateBlocked, reviews), Blocked))
    case Pass =>
      var version := w.candidates[|w.candidates| - 1].version;
      Ok(Moved(WithLast(w, Materialized, reviews), AwaitingDecisionApproval).(decisions := w.decisions + [version]))
    case _ =>
      var v := WithLast(w, NeedsRevision, reviews);
      if w.revisionCount >= w.maxRounds then Ok(Moved(v, Escalated))
      else ToChief(v.(revisionCount := w.revisionCount + 1))
  }

  function Decide(w: Workflow): Result<Workflow>
    requires |w.candidates| > 0
  {
    var last := w.candidates[|w.candidates| - 1];
    var reviews := Reviews(w.rows, last.version, |V.REQUIRED|);
    if reviews.Err? then Err(reviews.error)
    else
      var outcome := V.GovernedOutcome(last.body, reviews.value);
      if outcome.Err? then Err(outcome.error) else Concluded(w, outcome.value, reviews.value)
  }

  function Advance(w: Workflow): Result<Workflow> {
    match w.status
    case SnapshotReady =>
      var r := EnsureAll(w.rows, SPECIALISTS, OUTPUT_ATTEMPTS);
      if r.Err? then Err(r.error) else Ok(Moved(w.(rows := r.value), SpecialistsRunning))
    case SpecialistsRunning =>
      var r := EnsureAll(w.rows, SPECIALISTS, OUTPUT_ATTEMPTS);
      if r.Err? then Err(r.error)
      else if !AllReady(w.rows, SPECIALISTS) then Ok(w.(rows := r.value))
      else ToChief(w.(rows := r.value))
    case ChiefRunning =>
      var slot := Chief(|w.candidates| + 1);
      var r := EnsureSlot(w.rows, slot, OUTPUT_ATTEMPTS);
      if r.Err? then Err(r.error)
      else if !Ready(w.rows, slot) then Ok(w.(rows := r.value))
      else ToControllers(w)
    case ControllersRunning =>
      if |w.candidates| == 0 then Err(NotReady)
      else
        var slots := ControllerSlots(w.candidates[|w.candidates| - 1].version);
        var r := EnsureAll(w.rows, slots, OUTPUT_ATTEMPTS);
        if r.Err? then Err(r.error)
        else if !AllReady(w.rows, slots) then Ok(w.(rows := r.value))
        else Decide(w)
    case _ => Ok(w)
  }

  function Approve(w: Workflow): Result<Workflow> {
    if w.status.ApprovedForProduction? then Ok(w)
    else if !w.status.AwaitingDecisionApproval? || |w.decisions| == 0 then Err(NotEligible)
    else Ok(Moved(w, ApprovedForProduction))
  }

  // ------------------------------------------------------------ runs

  datatype Event = AdvanceJob | RunEnds(i: nat, answer: Answer) | OwnerApproves

  function Committed(w: Workflow, r: Result<Workflow>): Workflow { if r.Ok? then r.value else w }

  function Step(w: Workflow, e: Event): Workflow {
    match e
    case AdvanceJob => Committed(w, Advance(w))
    case RunEnds(i, a) => RunFinished(w, i, a)
    case OwnerApproves => Committed(w, Approve(w))
  }

  function Run(w: Workflow, es: seq<Event>): Workflow {
    if |es| == 0 then w else Step(Run(w, es[..|es| - 1]), es[|es| - 1])
  }

  // ------------------------------------------------------------ invariant

  /** Committed status changes so far, as a function of where the workflow stands. */
  function Rank(status: Status, rev: nat): nat {
    match status
    case SnapshotReady => 0
    case SpecialistsRunning => 1
    case ChiefRunning => 2 + 2 * rev
    case ControllersRunning => 3 + 2 * rev
    case ApprovedForProduction => 5 + 2 * rev
    case _ => 4 + 2 * rev
  }

  /** The statuses a transaction passes through but never commits. */
  predicate Transient(s: Status) {
    s.SpecialistsReady? || s.DecisionCandidateReady? || s.RevisionRequired? || s.CandidateAccepted?
      || s.FinalDecisionMaterialized?
  }

  predicate Numbered(w: Workflow) {
    && (forall i :: 0 <= i < |w.candidates| ==> w.candidates[i].version == i + 1 && w.candidates[i].round == i)
    && w.revisionCount <= w.maxRounds
    && match w.status
       case SnapshotReady => |w.candidates| == 0 && w.revisionCount == 0
       case SpecialistsRunning => |w.candidates| == 0 && w.revisionCount == 0
       case ChiefRunning => |w.candidates| == w.revisionCount
       case _ => |w.candidates| == w.revisionCount + 1
  }

  predicate FullyReviewed(c: Candidate) {
    && |c.reviews| == |V.REQUIRED|
    && (forall k :: 0 <= k < |c.reviews| ==> c.reviews[k].controller == V.REQUIRED[k])
    && V.Distinct(c.reviews)
  }

  /** A decision exists exactly once approval is awaited, and then it is the newest candidate's,
      reviewed by all seven controllers with governed outcome PASS. */
  predicate DecisionSound(w: Workflow) {
    if w.status.AwaitingDecisionApproval? || w.status.ApprovedForProduction? then
      && |w.candidates| > 0 && w.decisions == [|w.candidates|]
      && var last := w.candidates[|w.candidates| - 1];
         last.status.Materialized? && FullyReviewed(last) && V.GovernedOutcome(last.body, last.reviews) == Ok(V.Pass)
    else w.decisions == []
  }

  predicate SlotOk(s: Slot, maxRounds: nat) {
    match s
    case Specialist(k) => k < 3
    case Chief(v) => 1 <= v <= maxRounds + 1
    case Controller(v, _) => 1 <= v <= maxRounds + 1
  }

  predicate SlotsOk(rows: Rows, maxRounds: nat) {
    forall i :: 0 <= i < |rows| ==> SlotOk(rows[i].slot, maxRounds)
  }

  predicate Inv(w: Workflow) {
    && !Transient(w.status) && Numbered(w) && DecisionSound(w) && w.changes == Rank(w.status, w.revisionCount)
    && Disciplined(w.rows, OUTPUT_ATTEMPTS) && SlotsOk(w.rows, w.maxRounds)
  }

  /** The review row is the newest usable output of controller k, field by field. */
  predicate Keeps(r: V.Review, rows: Rows, version: nat, k: nat)
    requires k < |V.REQUIRED|
  {
    var o := Newest(rows, Controller(version, V.REQUIRED[k]));
    && o.Some? && o.value.ControllerOutput? && r.controller == V.REQUIRED[k]
    && r.verdict == o.value.verdict && r.requiredChanges == o.value.requiredChanges
    && r.missingInfoOnly == o.value.missingInfoOnly
    && r.conditions == (if o.value.verdict == V.PassWithConditions then o.value.requiredChanges else [])
  }

  lemma {:induction false} ReviewsAre(rows: Rows, version: nat, n: nat)
    requires n <= |V.REQUIRED| && Reviews(rows, version, n).Ok?
    ensures
      var rs := Reviews(rows, version, n).value;
      && |rs| == n
      && forall k :: 0 <= k < n ==> rs[k].id == 7 * version + k && Keeps(rs[k], rows, version, k)
  {
    if n > 0 { ReviewsAre(rows, version, n - 1); }
  }

  lemma ReviewsComplete(rows: Rows, c: Candidate)
    requires Reviews(rows, c.version, |V.REQUIRED|) == Ok(c.reviews)
    ensures FullyReviewed(c)
  {
    ReviewsAre(rows, c.version, |V.REQUIRED|);
    forall i, k | 0 <= i < k < |c.reviews|
      ensures c.reviews[i].controller != c.reviews[k].controller && c.reviews[i].id != c.reviews[k].id
    {
      assert V.REQUIRED[i] != V.REQUIRED[k];
    }
  }

  lemma ToChiefKeeps(w: Workflow)
    requires Disciplined(w.rows, OUTPUT_ATTEMPTS) && SlotsOk(w.rows, w.maxRounds) && |w.candidates| <= w.maxRounds
      && ToChief(w).Ok?
    ensures
      var v := ToChief(w).value;
      && Disciplined(v.rows, OUTPUT_ATTEMPTS) && SlotsOk(v.rows, w.maxRounds)
      && v == w.(rows := v.rows, status := ChiefRunning, changes := w.changes + 1)
  {
    EnsureSlotKeeps(w.rows, Chief(|w.candidates| + 1), OUTPUT_ATTEMPTS);
  }

  lemma EnsuredSlotsOk(rows: Rows, slots: seq<Slot>, maxRounds: nat)
    requires Disciplined(rows, OUTPUT_ATTEMPTS) && SlotsOk(rows, maxRounds)
      && EnsureAll(rows, slots, OUTPUT_ATTEMPTS).Ok?
    requires forall i :: 0 <= i < |slots| ==> SlotOk(slots[i], maxRounds)
    ensures
      var after := EnsureAll(rows, slots, OUTPUT_ATTEMPTS).value;
      Disciplined(after, OUTPUT_ATTEMPTS) && SlotsOk(after, maxRounds)
  {
    EnsureAllKeeps(rows, slots, OUTPUT_ATTEMPTS);
  }

  lemma RevisionKeepsInv(w: Workflow, reviews: seq<V.Review>)
    requires Inv(w) && w.status.ControllersRunning? && w.revisionCount < w.maxRounds
    requires ToChief(WithLast(w, NeedsRevision, reviews).(revisionCount := w.revisionCount + 1)).Ok?
    ensures Inv(ToChief(WithLast(w, NeedsRevision, reviews).(revisionCount := w.revisionCount + 1)).value)
  {
    ToChiefKeeps(WithLast(w, NeedsRevision, reviews).(revisionCount := w.revisionCount + 1));
  }

  lemma VerdictKeepsInv(w: Workflow, status: CandidateStatus, reviews: seq<V.Review>, next: Status)
    requires Inv(w) && w.status.ControllersRunning? && (next.Blocked? || next.Escalated?)
    ensures Inv(Moved(WithLast(w, status, reviews), next))
  {}

  lemma AcceptanceKeepsInv(w: Workflow, reviews: seq<V.Review>)
    requires Inv(w) && w.status.ControllersRunning?
    requires Reviews(w.rows, |w.candidates|, |V.REQUIRED|) == Ok(reviews)
    requires V.GovernedOutcome(w.candidates[|w.candidates| - 1].body, reviews) == Ok(V.Pass)
    ensures
      var decided := Moved(WithLast(w, Materialized, reviews), AwaitingDecisionApproval);
      Inv(decided.(decisions := w.decisions + [|w.candidates|]))
  {
    ReviewsComplete(w.rows, w.candidates[|w.candidates| - 1].(reviews := reviews, status := Materialized));
  }

  lemma DecideKeepsInv(w: Workflow)
    requires Inv(w) && w.status.ControllersRunning? && Decide(w).Ok?
    ensures Inv(Decide(w).value)
  {
    var last := w.candidates[|w.candidates| - 1];
    var reviews := Reviews(w.rows, last.version, |V.REQUIRED|).value;
    match V.GovernedOutcome(last.body, reviews).value {
      case Block => VerdictKeepsInv(w, CandidateBlocked, reviews, Blocked);
      case Pass => AcceptanceKeepsInv(w, reviews);
      case _ =>
        if w.revisionCount >= w.maxRounds {
          VerdictKeepsInv(w, NeedsRevision, reviews, Escalated);
        } else {
          RevisionKeepsInv(w, reviews);
        }
    }
  }

  lemma SpecialistsKeepInv(w: Workflow)
    requires Inv(w) && (w.status.SnapshotReady? || w.status.SpecialistsRunning?) && Advance(w).Ok?
    ensures Inv(Advance(w).value)
  {
    EnsuredSlotsOk(w.rows, SPECIALISTS, w.maxRounds);
    if w.status.SpecialistsRunning? && AllReady(w.rows, SPECIALISTS) {
      ToChiefKeeps(w.(rows := EnsureAll(w.rows, SPECIALISTS, OUTPUT_ATTEMPTS).value));
    }
  }

  lemma ToControllersKeepsInv(w: Workflow)
    requires Inv(w) && w.status.ChiefRunning? && ToControllers(w).Ok?
    ensures Inv(ToControllers(w).value)
  {
    EnsuredSlotsOk(w.rows, ControllerSlots(|w.candidates| + 1), w.maxRounds);
  }

  lemma ChiefKeepsInv(w: Workflow)
    requires Inv(w) && w.status.ChiefRunning? && Advance(w).Ok?
    ensures Inv(Advance(w).value)
  {
    var slot := Chief(|w.candidates| + 1);
    EnsureSlotKeeps(w.rows, slot, OUTPUT_ATTEMPTS);
    if Ready(w.rows, slot) { ToControllersKeepsInv(w); }
  }

  lemma ControllersKeepInv(w: Workflow)
    requires Inv(w) && w.status.ControllersRunning? && Advance(w).Ok?
    ensures Inv(Advance(w).value)
  {
    var slots := ControllerSlots(|w.candidates|);
    EnsuredSlotsOk(w.rows, slots, w.maxRounds);
    if AllReady(w.rows, slots) { DecideKeepsInv(w); }
  }

  lemma AdvanceKeepsInv(w: Workflow)
    requires Inv(w) && Advance(w).Ok?
    ensures Inv(Advance(w).value)
  {
    match w.status {
      case SnapshotReady => SpecialistsKeepInv(w);
      case SpecialistsRunning => SpecialistsKeepInv(w);
      case ChiefRunning => ChiefKeepsInv(w);
      case ControllersRunning => ControllersKeepInv(w);
      case _ =>
    }
  }

  lemma StepKeepsInv(w: Workflow, e: Event)
    requires Inv(w)
    ensures Inv(Step(w, e))
  {
    match e {
      case AdvanceJob => if Advance(w).Ok? { AdvanceKeepsInv(w); }
      case RunEnds(i, a) =>
        if i < |w.rows| {
          var state := if CanMaterialize(w, w.rows[i].slot, a) then Usable(a.output) else Unusable;
          FinishKeeps(w.rows, i, state, OUTPUT_ATTEMPTS);
        }
      case OwnerApproves =>
    }
  }

  lemma {:induction false} EveryRunKeepsInv(maxRounds: nat, es: seq<Event>)
    ensures Inv(Run(Started(maxRounds), es)) && Run(Started(maxRounds), es).maxRounds == maxRounds
  {
    if |es| > 0 {
      var w := Run(Started(maxRounds), es[..|es| - 1]);
      EveryRunKeepsInv(maxRounds, es[..|es| - 1]);
      StepKeepsInv(w, es[|es| - 1]);
      assert Step(w, es[|es| - 1]).maxRounds == maxRounds;
    }
  }

  // ------------------------------------------------------------ bounded work

  function ControllerIndex(c: V.Controller): (i: nat)
    ensures i < |V.REQUIRED| && V.REQUIRED[i] == c
  {
    match c
    case Evidence => 0
    case StrategyRedTeam => 1
    case Constitutional => 2
    case DecisionQuality => 3
    case Economics => 4
    case Manipulation => 5
    case AntiAnalysisParalysis => 6
  }

  function SlotsUpTo(n: nat): (slots: seq<Slot>)
    ensures |slots| == 3 + 8 * n
    ensures forall s: Slot :: (match s
      case Specialist(k) => k < 3
      case Chief(v) => 1 <= v <= n
      case Controller(v, _) => 1 <= v <= n) ==> s in slots
  {
    if n == 0 then SPECIALISTS
    else
      var rest, mine := SlotsUpTo(n - 1), ControllerSlots(n);
      assert forall c: V.Controller :: Controller(n, c) in mine by {
        forall c: V.Controller ensures Controller(n, c) in mine {
          assert mine[ControllerIndex(c)] == Controller(n, c);
        }
      }
      rest + [Chief(n)] + mine
  }

  /** However the agents answer, a workflow creates at most 9 + 24 * (max + 1) agent runs and
      commits at most 5 + 2 * max status changes. */
  lemma BoundedWork(maxRounds: nat, es: seq<Event>)
    ensures |Run(Started(maxRounds), es).rows| <= 9 + 24 * (maxRounds + 1)
    ensures Run(Started(maxRounds), es).changes <= 5 + 2 * maxRounds
  {
    EveryRunKeepsInv(maxRounds, es);
    var w := Run(Started(maxRounds), es);
    TotalBounded(w.rows, SlotsUpTo(maxRounds + 1), OUTPUT_ATTEMPTS);
  }

  // ------------------------------------------------------------ what is final

  /** BLOCKED and ESCALATED absorb, and a made decision never changes: not by any further
      advance, late agent answer or approval. */
  predicate Closed(w: Workflow) { w.status.Blocked? || w.status.Escalated? || |w.decisions| > 0 }

  lemma {:induction false} OutcomeIsFinal(w: Workflow, es: seq<Event>)
    requires Inv(w) && Closed(w)
    ensures
      var v := Run(w, es);
      && Inv(v) && Closed(v) && v.candidates == w.candidates && v.decisions == w.decisions && |v.decisions| <= 1
      && (w.status.Blocked? || w.status.Escalated? ==> v.status == w.status)
  {
    if |es| > 0 {
      var p, e := Run(w, es[..|es| - 1]), es[|es| - 1];
      OutcomeIsFinal(w, es[..|es| - 1]);
      StepKeepsInv(p, e);
    }
  }

  /** The slots the current status waits for. */
  function Awaited(w: Workflow): seq<Slot> {
    match w.status
    case SpecialistsRunning => SPECIALISTS
    case ChiefRunning => [Chief(|w.candidates| + 1)]
    case ControllersRunning => ControllerSlots(|w.candidates|)
    case _ => []
  }

  predicate WaitsFor(w: Workflow, i: nat) {
    i < |w.rows| && w.rows[i].state.Pending? && w.rows[i].slot in Awaited(w)
  }

  lemma StepWaits(w: Workflow, e: Event, i: nat)
    requires Inv(w) && WaitsFor(w, i) && (e.RunEnds? ==> e.i != i)
    ensures Step(w, e).status == w.status && WaitsFor(Step(w, e), i)
  {
    var slot := w.rows[i].slot;
    assert HasPending(w.rows, slot);
    if e.AdvanceJob? && Advance(w).Ok? {
      if w.status.ChiefRunning? {
        EnsureSlotKeeps(w.rows, slot, OUTPUT_ATTEMPTS);
      } else {
        var slots := Awaited(w);
        var k :| 0 <= k < |slots| && slots[k] == slot;
        assert !Ready(w.rows, slots[k]);
        EnsureAllKeeps(w.rows, slots, OUTPUT_ATTEMPTS);
      }
    }
  }

  /** A run that never ends (an orphaned one, for instance) holds its workflow for ever. */
  lemma {:induction false} PendingRunHolds(w: Workflow, es: seq<Event>, i: nat)
    requires Inv(w) && WaitsFor(w, i)
    requires forall k :: 0 <= k < |es| && es[k].RunEnds? ==> es[k].i != i
    ensures Inv(Run(w, es)) && Run(w, es).status == w.status && WaitsFor(Run(w, es), i)
  {
    if |es| > 0 {
      var front := es[..|es| - 1];
      PendingRunHolds(w, front, i);
      StepKeepsInv(Run(w, front), es[|es| - 1]);
      StepWaits(Run(w, front), es[|es| - 1], i);
    }
  }

  // ------------------------------------------------------------ the rows in place

  /** The workflow row with its candidates and agent runs, advanced in place.  The status passes
      through the intermediate values; an error restores what was committed. */
  class Engine {
    var status: Status
    var revisionCount: nat
    const maxRounds: nat
    var candidates: seq<Candidate>
    var rows: Rows
    var decisions: seq<nat>
    ghost var changes: nat

    constructor (maxRounds: nat)
      ensures View() == Started(maxRounds)
    {
      this.maxRounds := maxRounds;
      status, revisionCount, candidates, rows, decisions, changes := SnapshotReady, 0, [], [], [], 0;
    }

    ghost function View(): Workflow
      reads this
    {
      Workflow(status, revisionCount, maxRounds, candidates, rows, decisions, changes)
    }

    method AdvanceWorkflow() returns (error: Option<Error>)
      requires Inv(View())
      modifies this
      ensures error == ErrorOf(Advance(old(View())))
      ensures View() == Committed(old(View()), Advance(old(View())))
      ensures Inv(View())
    {
      ghost var w := View();
      if Advance(w).Ok? { AdvanceKeepsInv(w); }
      match status {
        case SnapshotReady => error := StartSpecialists();
        case SpecialistsRunning => error := AfterSpecialists();
        case ChiefRunning => error := AfterChief();
        case ControllersRunning => error := AfterControllers();
        case _ => error := None;
      }
    }

    method StartSpecialists() returns (error: Option<Error>)
      requires status.SnapshotReady?
      modifies this
      ensures error == ErrorOf(Advance(old(View())))
      ensures View() == Committed(old(View()), Advance(old(View())))
    {
      var r, _ := EnsureRuns(rows, SPECIALISTS, OUTPUT_ATTEMPTS);
      if r.Err? { return Some(r.error); }
      rows, status, changes := r.value, SpecialistsRunning, changes + 1;
      return None;
    }

    method AfterSpecialists() returns (error: Option<Error>)
      requires status.SpecialistsRunning?
      modifies this
      ensures error == ErrorOf(Advance(old(View())))
      ensures View() == Committed(old(View()), Advance(old(View())))
    {
      var saved := rows;
      var r, notReady := EnsureRuns(rows, SPECIALISTS, OUTPUT_ATTEMPTS);
      if r.Err? { return Some(r.error); }
      rows := r.value;
      if notReady > 0 { return None; }
      status := SpecialistsReady;
      var c := EnsureSlot(rows, Chief(|candidates| + 1), OUTPUT_ATTEMPTS);
      if c.Err? {
        rows, status := saved, SpecialistsRunning;
        return Some(c.error);
      }
      rows, status, changes := c.value, ChiefRunning, changes + 1;
      return None;
    }

    method AfterChief() returns (error: Option<Error>)
      requires status.ChiefRunning?
      modifies this
      ensures error == ErrorOf(Advance(old(View())))
      ensures View() == Committed(old(View()), Advance(old(View())))
    {
      var version := |candidates| + 1;
      var c := EnsureSlot(rows, Chief(version), OUTPUT_ATTEMPTS);
      if c.Err? { return Some(c.error); }
      if !Ready(rows, Chief(version)) {
        rows := c.value;
        return None;
      }
      var o := Newest(rows, Chief(version));
      if o.None? || !o.value.ChiefOutput? { return Some(NotReady); }
      var saved := candidates;
      candidates := candidates + [Candidate(version, revisionCount, o.value.candidate, o.value.worthWords,
        UnderReview, [])];
      status := DecisionCandidateReady;
      var r, _ := EnsureRuns(rows, ControllerSlots(version), OUTPUT_ATTEMPTS);
      if r.Err? {
        candidates, status := saved, ChiefRunning;
        return Some(r.error);
      }
      rows, status, changes := r.value, ControllersRunning, changes + 1;
      return None;
    }

    method AfterControllers() returns (error: Option<Error>)
      requires status.ControllersRunning?
      modifies this
      ensures error == ErrorOf(Advance(old(View())))
      ensures View() == Committed(old(View()), Advance(old(View())))
    {
      if |candidates| == 0 { return Some(NotReady); }
      var last := candidates[|candidates| - 1];
      var slots := ControllerSlots(last.version);
      var r, notReady := EnsureRuns(rows, slots, OUTPUT_ATTEMPTS);
      if r.Err? { return Some(r.error); }
      if notReady > 0 {
        rows := r.value;
        return None;
      }
      var reviews := MaterializeReviews(rows, last.version);
      if reviews.Err? { return Some(reviews.error); }
      var outcome := V.GovernedOutcome(last.body, reviews.value);
      if outcome.Err? { return Some(outcome.error); }
      error := Conclude(outcome.value, reviews.value);
    }

    method Conclude(outcome: V.Verdict, reviews: seq<V.Review>) returns (error: Option<Error>)
      requires status.ControllersRunning? && |candidates| > 0
      modifies this
      ensures error == ErrorOf(Concluded(old(View()), outcome, reviews))
      ensures View() == Committed(old(View()), Concluded(old(View()), outcome, reviews))
    {
      var n := |candidates| - 1;
      var reviewed := candidates[n].(reviews := reviews);
      match outcome {
        case Block =>
          candidates := candidates[n := reviewed.(status := CandidateBlocked)];
          status, changes := Blocked, changes + 1;
        case Pass =>
          status := CandidateAccepted;
          decisions := decisions + [reviewed.version];
          candidates := candidates[n := reviewed.(status := Materialized)];
          status := FinalDecisionMaterialized;
          status, changes := AwaitingDecisionApproval, changes + 1;
        case _ =>
          var saved := candidates;
          candidates := candidates[n := reviewed.(status := NeedsRevision)];
          if revisionCount >= maxRounds {
            status, changes := Escalated, changes + 1;
            return None;
          }
          revisionCount, status := revisionCount + 1, RevisionRequired;
          var c := EnsureSlot(rows, Chief(|candidates| + 1), OUTPUT_ATTEMPTS);
          if c.Err? {
            candidates, revisionCount, status := saved, revisionCount - 1, ControllersRunning;
            return Some(c.error);
          }
          rows, status, changes := c.value, ChiefRunning, changes + 1;
      }
      return None;
    }
  }

  /** The loop over the required controllers. */
  method MaterializeReviews(rows: Rows, version: nat) returns (r: Result<seq<V.Review>>)
    ensures r == Reviews(rows, version, |V.REQUIRED|)
    ensures r.Ok? ==> |r.value| == |V.REQUIRED| && forall k :: 0 <= k < |V.REQUIRED| ==>
      Keeps(r.value[k], rows, version, k)
  {
    var reviews := [];
    for k := 0 to |V.REQUIRED|
      invariant Reviews(rows, version, k) == Ok(reviews)
    {
      var o := Newest(rows, Controller(version, V.REQUIRED[k]));
      if o.None? || !o.value.ControllerOutput? {
        ReviewsErrorSticks(rows, version, k + 1, |V.REQUIRED|);
        return Err(NotReady);
      }
      var conditions := if o.value.verdict.PassWithConditions? then o.value.requiredChanges else [];
      reviews := reviews + [V.Review(7 * version + k, V.REQUIRED[k], o.value.verdict, conditions,
                                     o.value.requiredChanges, o.value.missingInfoOnly)];
    }
    ReviewsAre(rows, version, |V.REQUIRED|);
    return Ok(reviews);
  }

  lemma {:induction false} ReviewsErrorSticks(rows: Rows, version: nat, k: nat, n: nat)
    requires k <= n <= |V.REQUIRED| && Reviews(rows, version, k).Err?
    ensures Reviews(rows, version, n) == Reviews(rows, version, k)
    decreases n
  {
    if k < n { ReviewsErrorSticks(rows, version, k, n - 1); }
  }
}
