/**
 The governed production workflow (application/production_workflow.py, the production package): content
 strategy, writer, seven asset controllers, bounded revisions, one final asset version.

 Each agent run has a fixed idempotency key, so a slot gets one run and no retries.
 */
module ProductionWorkflow {
  import opened Basics
  import opened RunTable
  import V = Verdicts

  datatype AssetController =
    | AssetEvidence | Brand | AssetConstitutional | AssetManipulation | LegalClaims | ProductionQuality
    | RightsProvenance

  const REQUIRED: seq<AssetController> :=
    [AssetEvidence, Brand, AssetConstitutional, AssetManipulation, LegalClaims, ProductionQuality, RightsProvenance]

  datatype Slot = Strategy | Writer(version: nat) | Controller(version: nat, controller: AssetController)

  datatype Origin = Generated | UserProvided | Licensed | Derived

  /** One entry of a draft's claim inventory; factual, quantitative, testimonial and result claims
      need evidence. */
  datatype Claim = Claim(needsEvidence: bool, evidence: Option<nat>)

  /** The writer's output.  The three text detectors are facts about the body. */
  datatype Draft = Draft(
    body: string, worthMapping: bool, manipulative: bool, riskyMarker: bool,
    claims: seq<Claim>, origin: Origin, permissionScope: bool)

  datatype AssetReview = AssetReview(controller: AssetController, verdict: V.Verdict,
                                     conditions: seq<string>, requiredChanges: seq<string>)

  datatype Output =
    | StrategyOutput
    | DraftOutput(draft: Draft)
    | ReviewOutput(controller: AssetController, verdict: V.Verdict, requiredChanges: seq<string>)

  /** An asset version with its creator and rights rows; only the reviews are added later. */
  datatype AssetVersion = AssetVersion(
    number: nat, draft: Draft, creatorRun: nat, rightsRun: Option<nat>, reviews: seq<AssetReview>)

  datatype Status =
    | DecisionApprovalVerified | ContentStrategyRunning | ContentStrategyReady | BriefReady | ProductionRunning
    | AssetVersionReady | AssetControllersRunning | Blocked | RevisionRequired | ProductionReady
    | ReadyForActionProposal | Escalated

  type Rows = seq<Row<Slot, Output>>

  datatype Workflow = Workflow(
    status: Status, revisionCount: nat, maxRounds: nat, versions: seq<AssetVersion>,
    finalVersion: Option<nat>, rows: Rows, evidence: set<nat>)

  function Started(maxRounds: nat, evidence: set<nat>): Workflow {
    Workflow(DecisionApprovalVerified, 0, maxRounds, [], None, [], evidence)
  }

  // ------------------------------------------------------------ governance

  predicate DeclaresEvidence(claims: seq<Claim>) {
    exists i :: 0 <= i < |claims| && claims[i].evidence.Some?
  }

  predicate UnsupportedClaims(d: Draft, evidence: set<nat>) {
    || (exists i :: 0 <= i < |d.claims| && d.claims[i].needsEvidence
                    && (d.claims[i].evidence.None? || d.claims[i].evidence.value !in evidence))
    || (d.riskyMarker && !DeclaresEvidence(d.claims))
  }

  predicate RightsComplete(v: AssetVersion) {
    if v.draft.origin.Generated? then v.rightsRun == Some(v.creatorRun) else v.draft.permissionScope
  }

  predicate HasVerdict(reviews: seq<AssetReview>, v: V.Verdict) {
    exists i :: 0 <= i < |reviews| && reviews[i].verdict == v
  }

  predicate UnmetCondition(reviews: seq<AssetReview>) {
    exists i :: 0 <= i < |reviews| && reviews[i].verdict.PassWithConditions?
                && V.Mandatory(reviews[i].conditions, reviews[i].requiredChanges)
  }

  predicate AllPresent(reviews: seq<AssetReview>) {
    forall c :: c in REQUIRED ==> exists i :: 0 <= i < |reviews| && reviews[i].controller == c
  }

  function AssetOutcome(v: AssetVersion, evidence: set<nat>, reviews: seq<AssetReview>): Result<V.Verdict> {
    if !AllPresent(reviews) then Err(NotReady)
    else if v.draft.worthMapping || v.draft.manipulative then Ok(V.Block)
    else if UnsupportedClaims(v.draft, evidence) || !RightsComplete(v) then Ok(V.Revise)
    else if HasVerdict(reviews, V.Block) then Ok(V.Block)
    else if HasVerdict(reviews, V.Revise) then Ok(V.Revise)
    else if UnmetCondition(reviews) then Ok(V.PassWithConditions)
    else Ok(V.Pass)
  }

  /** Everything a PASS stands for. */
  predicate Cleared(v: AssetVersion, evidence: set<nat>) {
    && AllPresent(v.reviews)
    && !v.draft.worthMapping && !v.draft.manipulative
    && (forall i :: 0 <= i < |v.draft.claims| && v.draft.claims[i].needsEvidence ==>
          v.draft.claims[i].evidence.Some? && v.draft.claims[i].evidence.value in evidence)
    && (v.draft.riskyMarker ==> DeclaresEvidence(v.draft.claims))
    && (v.draft.origin.Generated? ==> v.rightsRun == Some(v.creatorRun))
    && (!v.draft.origin.Generated? ==> v.draft.permissionScope)
    && (forall i :: 0 <= i < |v.reviews| ==>
          && !v.reviews[i].verdict.Block? && !v.reviews[i].verdict.Revise?
          && (v.reviews[i].verdict.PassWithConditions? ==>
                !V.Mandatory(v.reviews[i].conditions, v.reviews[i].requiredChanges)))
  }

  lemma PassMeansCleared(v: AssetVersion, evidence: set<nat>)
    ensures AssetOutcome(v, evidence, v.reviews) == Ok(V.Pass) <==> Cleared(v, evidence)
  {
    var o := AssetOutcome(v, evidence, v.reviews);
    if Cleared(v, evidence) {
      assert !UnsupportedClaims(v.draft, evidence);
      assert !UnmetCondition(v.reviews);
    }
  }

  /** Unlike the decision rule, a controller's BLOCK is not final here: missing support or rights
      are looked at first and turn it into a revision.  This is exactly when it stays a BLOCK. */
  lemma ControllerBlockSurvives(v: AssetVersion, evidence: set<nat>, reviews: seq<AssetReview>)
    requires AllPresent(reviews) && HasVerdict(reviews, V.Block)
    ensures AssetOutcome(v, evidence, reviews) == Ok(V.Block) <==>
      v.draft.worthMapping || v.draft.manipulative || (!UnsupportedClaims(v.draft, evidence) && RightsComplete(v))
    ensures AssetOutcome(v, evidence, reviews) in {Ok(V.Block), Ok(V.Revise)}
  {}

  const UNSUPPORTED := AssetVersion(1, Draft("x", false, false, false, [Claim(true, None)], Generated, false), 0,
    Some(0), [])

  lemma ControllerBlockCanBecomeRevision()
    ensures
      var reviews := seq(7, i requires 0 <= i < 7 => AssetReview(REQUIRED[i], V.Block, [], []));
      AssetOutcome(UNSUPPORTED, {}, reviews) == Ok(V.Revise)
  {
    var reviews := seq(7, i requires 0 <= i < 7 => AssetReview(REQUIRED[i], V.Block, [], []));
    forall c | c in REQUIRED
      ensures exists i :: 0 <= i < |reviews| && reviews[i].controller == c
    {
      var i :| 0 <= i < 7 && REQUIRED[i] == c;
      assert reviews[i].controller == c;
    }
    assert UNSUPPORTED.draft.claims[0].needsEvidence;
  }

  // ------------------------------------------------------------ the transaction

  /** create_agent_run under a fixed idempotency key. */
  function StartOnce(rows: Rows, slot: Slot): Rows {
    if Count(rows, slot) > 0 then rows else rows + [Row(slot, Pending)]
  }

  function StartAll(rows: Rows, version: nat, n: nat): Rows
    requires n <= |REQUIRED|
  {
    if n == 0 then rows else StartOnce(StartAll(rows, version, n - 1), Controller(version, REQUIRED[n - 1]))
  }

  predicate Valid(slot: Slot, o: Output) {
    match slot
    case Strategy => o.StrategyOutput?
    case Writer(_) => o.DraftOutput?
    case Controller(_, c) => o.ReviewOutput? && o.controller == c
  }

  function RunFinished(w: Workflow, i: nat, o: Option<Output>): Workflow {
    if i >= |w.rows| || !w.rows[i].state.Pending? then w
    else w.(rows := Finish(w.rows, i, if o.Some? && Valid(w.rows[i].slot, o.value) then Usable(o.value) else Unusable))
  }

  function RunIndex(rows: Rows, slot: Slot): nat {
    if |rows| == 0 then 0
    else if rows[|rows| - 1].slot == slot then |rows| - 1
    else RunIndex(rows[..|rows| - 1], slot)
  }

  function ReviewOf(o: Output): AssetReview
    requires o.ReviewOutput?
  {
    var conditions := if o.verdict.PassWithConditions? then o.requiredChanges else [];
    AssetReview(o.controller, o.verdict, conditions, o.requiredChanges)
  }

  function Reviews(rows: Rows, version: nat, n: nat): Result<seq<AssetReview>>
    requires n <= |REQUIRED|
  {
    if n == 0 then Ok([])
    else
      var front := Reviews(rows, version, n - 1);
      var o := Newest(rows, Controller(version, REQUIRED[n - 1]));
      if front.Err? then front
      else if o.None? || !o.value.ReviewOutput? || o.value.controller != REQUIRED[n - 1] then Err(NotReady)
      else Ok(front.value + [ReviewOf(o.value)])
  }

  function NewVersion(w: Workflow, number: nat, d: Draft): AssetVersion {
    var run := RunIndex(w.rows, Writer(number));
    AssetVersion(number, d, run, if d.origin.Generated? then Some(run) else None, [])
  }

  function WithReviews(w: Workflow, reviews: seq<AssetReview>): Workflow
    requires |w.versions| > 0
  {
    var n := |w.versions| - 1;
    w.(versions := w.versions[n := w.versions[n].(reviews := reviews)])
  }

  function Concluded(w: Workflow, outcome: V.Verdict): Workflow
    requires |w.versions| > 0
  {
    match outcome
    case Block => w.(status := Blocked)
    case Pass => w.(status := ReadyForActionProposal, finalVersion := Some(|w.versions|))
    case _ =>
      if w.revisionCount >= w.maxRounds then w.(status := Escalated)
      else w.(revisionCount := w.revisionCount + 1, status := ProductionRunning,
              rows := StartOnce(w.rows, Writer(|w.versions| + 1)))
  }

  /** bindingOk: the decision is still the approved, unsuperseded version. */
  function Advance(w: Workflow, bindingOk: bool): Result<Workflow> {
    if !bindingOk then Err(NotEligible)
    else match w.status
    case DecisionApprovalVerified => Ok(w.(rows := StartOnce(w.rows, Strategy), status := ContentStrategyRunning))
    case ContentStrategyRunning =>
      if Newest(w.rows, Strategy).None? then Err(NotReady)
      else Ok(w.(rows := StartOnce(w.rows, Writer(|w.versions| + 1)), status := ProductionRunning))
    case ProductionRunning =>
      var number := |w.versions| + 1;
      var o := Newest(w.rows, Writer(number));
      if o.None? || !o.value.DraftOutput? then Err(NotReady)
      else Ok(w.(versions := w.versions + [NewVersion(w, number, o.value.draft)], finalVersion := Some(number),
                 rows := StartAll(w.rows, number, |REQUIRED|), status := AssetControllersRunning))
    case AssetControllersRunning =>
      if |w.versions| == 0 then Err(NotFound)
      else
        var reviews := Reviews(w.rows, |w.versions|, |REQUIRED|);
        if reviews.Err? then Err(reviews.error)
        else
          var outcome := AssetOutcome(w.versions[|w.versions| - 1], w.evidence, reviews.value);
          if outcome.Err? then Err(outcome.error) else Ok(Concluded(WithReviews(w, reviews.value), outcome.value))
    case _ => Ok(w)
  }

  // ------------------------------------------------------------ runs

  datatype Event = AdvanceJob(bindingOk: bool) | RunEnds(i: nat, output: Option<Output>) | EvidenceRecorded(id: nat)

  function Step(w: Workflow, e: Event): Workflow {
    match e
    case AdvanceJob(bindingOk) => if Advance(w, bindingOk).Ok? then Advance(w, bindingOk).value else w
    case RunEnds(i, o) => RunFinished(w, i, o)
    case EvidenceRecorded(id) => w.(evidence := w.evidence + {id})
  }

  function Run(w: Workflow, es: seq<Event>): Workflow {
    if |es| == 0 then w else Step(Run(w, es[..|es| - 1]), es[|es| - 1])
  }

  predicate Transient(s: Status) {
    s.ContentStrategyReady? || s.BriefReady? || s.AssetVersionReady? || s.RevisionRequired? || s.ProductionReady?
  }

  predicate Numbered(w: Workflow) {
    && (forall i :: 0 <= i < |w.versions| ==> w.versions[i].number == i + 1)
    && w.revisionCount <= w.maxRounds
    && w.finalVersion == (if |w.versions| == 0 then None else Some(|w.versions|))
    && match w.status
       case DecisionApprovalVerified => |w.versions| == 0 && w.revisionCount == 0
       case ContentStrategyRunning => |w.versions| == 0 && w.revisionCount == 0
       case ProductionRunning => |w.versions| == w.revisionCount
       case _ => |w.versions| == w.revisionCount + 1
  }

  /** READY means the highest version passed the governed review. */
  predicate ReadySound(w: Workflow) {
    w.status.ReadyForActionProposal? ==>
      |w.versions| > 0 && w.finalVersion == Some(|w.versions|) && Cleared(w.versions[|w.versions| - 1], w.evidence)
  }

  /** Creator and rights rows name the run of the version's own writer slot. */
  predicate WriterBound(w: Workflow) {
    forall i :: 0 <= i < |w.versions| ==>
      var v := w.versions[i];
      && v.creatorRun < |w.rows| && w.rows[v.creatorRun].slot == Writer(i + 1)
      && (v.draft.origin.Generated? ==> v.rightsRun == Some(v.creatorRun))
  }

  predicate SlotOk(s: Slot, maxRounds: nat) {
    match s
    case Strategy => true
    case Writer(v) => 1 <= v <= maxRounds + 1
    case Controller(v, _) => 1 <= v <= maxRounds + 1
  }

  predicate RowsInv(rows: Rows, maxRounds: nat) {
    && Disciplined(rows, 1)
    && forall i :: 0 <= i < |rows| ==> SlotOk(rows[i].slot, maxRounds)
  }

  predicate Inv(w: Workflow) {
    !Transient(w.status) && Numbered(w) && ReadySound(w) && WriterBound(w) && RowsInv(w.rows, w.maxRounds)
  }

  lemma {:induction false} CountPositive(rows: Rows, i: nat)
    requires i < |rows|
    ensures Count(rows, rows[i].slot) >= 1
  {
    if i < |rows| - 1 {
      assert rows[..|rows| - 1][i] == rows[i];
      CountPositive(rows[..|rows| - 1], i);
    }
  }

  lemma StartOnceKeeps(rows: Rows, slot: Slot, maxRounds: nat)
    requires RowsInv(rows, maxRounds) && SlotOk(slot, maxRounds)
    ensures RowsInv(StartOnce(rows, slot), maxRounds) && rows <= StartOnce(rows, slot)
  {
    var after := StartOnce(rows, slot);
    if after != rows {
      assert after[..|rows|] == rows;
      forall i | 0 <= i < |rows|
        ensures rows[i].slot != slot && Count(after, after[i].slot) <= 1
      {
        CountPositive(rows, i);
      }
    }
  }

  lemma {:induction false} StartAllKeeps(rows: Rows, version: nat, n: nat, maxRounds: nat)
    requires RowsInv(rows, maxRounds) && n <= |REQUIRED| && 1 <= version <= maxRounds + 1
    ensures RowsInv(StartAll(rows, version, n), maxRounds) && rows <= StartAll(rows, version, n)
  {
    if n > 0 {
      StartAllKeeps(rows, version, n - 1, maxRounds);
      StartOnceKeeps(StartAll(rows, version, n - 1), Controller(version, REQUIRED[n - 1]), maxRounds);
    }
  }

  lemma {:induction false} RunIndexIs(rows: Rows, slot: Slot)
    requires Newest(rows, slot).Some?
    ensures RunIndex(rows, slot) < |rows| && rows[RunIndex(rows, slot)].slot == slot
  {
    if rows[|rows| - 1].slot != slot { RunIndexIs(rows[..|rows| - 1], slot); }
  }

  /** The review row is the newest usable output of controller k, field by field. */
  predicate Keeps(r: AssetReview, rows: Rows, version: nat, k: nat)
    requires k < |REQUIRED|
  {
    var o := Newest(rows, Controller(version, REQUIRED[k]));
    && o.Some? && o.value.ReviewOutput? && o.value.controller == REQUIRED[k] == r.controller
    && r.verdict == o.value.verdict && r.requiredChanges == o.value.requiredChanges
    && r.conditions == (if o.value.verdict == V.PassWithConditions then o.value.requiredChanges else [])
  }

  lemma {:induction false} ReviewsAre(rows: Rows, version: nat, n: nat)
    requires n <= |REQUIRED| && Reviews(rows, version, n).Ok?
    ensures
      var rs := Reviews(rows, version, n).value;
      |rs| == n && forall k :: 0 <= k < n ==> Keeps(rs[k], rows, version, k)
  {
    if n > 0 { ReviewsAre(rows, version, n - 1); }
  }

  lemma WriterBoundGrows(w: Workflow, rows: Rows)
    requires WriterBound(w) && w.rows <= rows
    ensures WriterBound(w.(rows := rows))
  {}

  lemma WritingKeepsInv(w: Workflow)
    requires Inv(w) && w.status.ProductionRunning? && Advance(w, true).Ok?
    ensures Inv(Advance(w, true).value)
  {
    var number := |w.versions| + 1;
    RunIndexIs(w.rows, Writer(number));
    StartAllKeeps(w.rows, number, |REQUIRED|, w.maxRounds);
    WriterBoundGrows(w, StartAll(w.rows, number, |REQUIRED|));
  }

  lemma ConcludedKeepsInv(w: Workflow, outcome: V.Verdict)
    requires Inv(w) && w.status.AssetControllersRunning?
    requires outcome.Pass? ==> Cleared(w.versions[|w.versions| - 1], w.evidence)
    ensures Inv(Concluded(w, outcome))
  {
    if (outcome.Revise? || outcome.PassWithConditions?) && w.revisionCount < w.maxRounds {
      StartOnceKeeps(w.rows, Writer(|w.versions| + 1), w.maxRounds);
      WriterBoundGrows(w, StartOnce(w.rows, Writer(|w.versions| + 1)));
    }
  }

  lemma ReviewingKeepsInv(w: Workflow)
    requires Inv(w) && w.status.AssetControllersRunning? && Advance(w, true).Ok?
    ensures Inv(Advance(w, true).value)
  {
    var reviews := Reviews(w.rows, |w.versions|, |REQUIRED|).value;
    var v := WithReviews(w, reviews);
    var outcome := AssetOutcome(w.versions[|w.versions| - 1], w.evidence, reviews).value;
    assert v.versions[|v.versions| - 1].draft == w.versions[|w.versions| - 1].draft;
    SameOutcome(w.versions[|w.versions| - 1], w.evidence, reviews);
    PassMeansCleared(v.versions[|v.versions| - 1], w.evidence);
    assert WriterBound(v);
    ConcludedKeepsInv(v, outcome);
  }

  lemma SameOutcome(v: AssetVersion, evidence: set<nat>, reviews: seq<AssetReview>)
    ensures AssetOutcome(v.(reviews := reviews), evidence, reviews) == AssetOutcome(v, evidence, reviews)
  {}

  lemma AdvanceKeepsInv(w: Workflow)
    requires Inv(w) && Advance(w, true).Ok?
    ensures Inv(Advance(w, true).value)
  {
    match w.status {
      case DecisionApprovalVerified => StartOnceKeeps(w.rows, Strategy, w.maxRounds);
      case ContentStrategyRunning => StartOnceKeeps(w.rows, Writer(1), w.maxRounds);
      case ProductionRunning => WritingKeepsInv(w);
      case AssetControllersRunning => ReviewingKeepsInv(w);
      case _ =>
    }
  }

  lemma StepKeepsInv(w: Workflow, e: Event)
    requires Inv(w)
    ensures Inv(Step(w, e))
  {
    match e {
      case AdvanceJob(bindingOk) => if Advance(w, bindingOk).Ok? { AdvanceKeepsInv(w); }
      case RunEnds(i, o) =>
        if i < |w.rows| {
          FinishKeeps(w.rows, i, if o.Some? && Valid(w.rows[i].slot, o.value) then Usable(o.value) else Unusable, 1);
        }
      case EvidenceRecorded(id) =>
    }
  }

  /** Versions are 1..n in step with the revision count; READY names the highest version, which has
      all seven reviews, supported claims, complete rights and no unmet condition. */
  lemma {:induction false} EveryRunKeepsInv(maxRounds: nat, evidence: set<nat>, es: seq<Event>)
    ensures
      var w := Run(Started(maxRounds, evidence), es);
      Inv(w) && w.maxRounds == maxRounds
  {
    if |es| > 0 {
      var w := Run(Started(maxRounds, evidence), es[..|es| - 1]);
      EveryRunKeepsInv(maxRounds, evidence, es[..|es| - 1]);
      StepKeepsInv(w, es[|es| - 1]);
      assert Step(w, es[|es| - 1]).maxRounds == maxRounds;
    }
  }

  function ControllerSlots(n: nat): seq<Slot> {
    [Controller(n, AssetEvidence), Controller(n, Brand), Controller(n, AssetConstitutional),
     Controller(n, AssetManipulation),
     Controller(n, LegalClaims), Controller(n, ProductionQuality), Controller(n, RightsProvenance)]
  }

  lemma Listed(n: nat, c: AssetController)
    ensures Controller(n, c) in ControllerSlots(n)
  {
    match c {
      case AssetEvidence =>
      case Brand =>
      case AssetConstitutional =>
      case AssetManipulation =>
      case LegalClaims =>
      case ProductionQuality =>
      case RightsProvenance =>
    }
  }

  function SlotsUpTo(n: nat): (slots: seq<Slot>)
    ensures |slots| == 1 + 8 * n
    ensures Strategy in slots
    ensures forall v :: 1 <= v <= n ==> Writer(v) in slots
    ensures forall v, c :: 1 <= v <= n ==> Controller(v, c) in slots
  {
    if n == 0 then [Strategy]
    else
      assert forall c :: Controller(n, c) in ControllerSlots(n) by {
        forall c ensures Controller(n, c) in ControllerSlots(n) { Listed(n, c); }
      }
      SlotsUpTo(n - 1) + [Writer(n)] + ControllerSlots(n)
  }

  lemma BoundedWork(maxRounds: nat, evidence: set<nat>, es: seq<Event>)
    ensures |Run(Started(maxRounds, evidence), es).rows| <= 1 + 8 * (maxRounds + 1)
  {
    EveryRunKeepsInv(maxRounds, evidence, es);
    var rows, slots := Run(Started(maxRounds, evidence), es).rows, SlotsUpTo(maxRounds + 1);
    forall i | 0 <= i < |rows|
      ensures rows[i].slot in slots
    {
      match rows[i].slot {
        case Strategy =>
        case Writer(v) =>
        case Controller(v, c) =>
      }
    }
    TotalBounded(rows, slots, 1);
  }

  lemma ReadyStep(w: Workflow, e: Event)
    requires Inv(w) && w.status.ReadyForActionProposal?
    ensures
      var v := Step(w, e);
      v.status == w.status && v.finalVersion == w.finalVersion && v.versions == w.versions && w.evidence <= v.evidence
  {}

  /** Once READY, the workflow never moves and its versions never change. */
  lemma {:induction false} ReadyStays(w: Workflow, es: seq<Event>)
    requires Inv(w) && w.status.ReadyForActionProposal?
    ensures
      var v := Run(w, es);
      && Inv(v) && v.status == w.status && v.finalVersion == w.finalVersion && v.versions == w.versions
      && w.evidence <= v.evidence
  {
    if |es| > 0 {
      var p := Run(w, es[..|es| - 1]);
      ReadyStays(w, es[..|es| - 1]);
      StepKeepsInv(p, es[|es| - 1]);
      ReadyStep(p, es[|es| - 1]);
    }
  }

  // ------------------------------------------------------------ the rows in place

  method EnsureControllerRuns(rows: Rows, version: nat) returns (after: Rows)
    ensures after == StartAll(rows, version, |REQUIRED|)
  {
    after := rows;
    for k := 0 to |REQUIRED|
      invariant after == StartAll(rows, version, k)
    {
      after := StartOnce(after, Controller(version, REQUIRED[k]));
    }
  }

  method MaterializeReviews(rows: Rows, version: nat) returns (r: Result<seq<AssetReview>>)
    ensures r == Reviews(rows, version, |REQUIRED|)
    ensures r.Ok? ==> |r.value| == |REQUIRED| && forall k :: 0 <= k < |REQUIRED| ==>
      Keeps(r.value[k], rows, version, k)
  {
    var reviews := [];
    for k := 0 to |REQUIRED|
      invariant Reviews(rows, version, k) == Ok(reviews)
    {
      var o := Newest(rows, Controller(version, REQUIRED[k]));
      if o.None? || !o.value.ReviewOutput? || o.value.controller != REQUIRED[k] {
        ReviewsErrorSticks(rows, version, k + 1, |REQUIRED|);
        return Err(NotReady);
      }
      var conditions := if o.value.verdict.PassWithConditions? then o.value.requiredChanges else [];
      reviews := reviews + [AssetReview(REQUIRED[k], o.value.verdict, conditions, o.value.requiredChanges)];
    }
    ReviewsAre(rows, version, |REQUIRED|);
    return Ok(reviews);
  }

  lemma {:induction false} ReviewsErrorSticks(rows: Rows, version: nat, k: nat, n: nat)
    requires k <= n <= |REQUIRED| && Reviews(rows, version, k).Err?
    ensures Reviews(rows, version, n) == Reviews(rows, version, k)
    decreases n
  {
    if k < n { ReviewsErrorSticks(rows, version, k, n - 1); }
  }

  /** The workflow row with its asset versions and agent runs, advanced in place. */
  class Engine {
    var status: Status
    var revisionCount: nat
    const maxRounds: nat
    var versions: seq<AssetVersion>
    var finalVersion: Option<nat>
    var rows: Rows
    var evidence: set<nat>

    constructor (maxRounds: nat, evidence: set<nat>)
      ensures View() == Started(maxRounds, evidence)
    {
      this.maxRounds, this.evidence := maxRounds, evidence;
      status, revisionCount, versions, finalVersion, rows := DecisionApprovalVerified, 0, [], None, [];
    }

    function View(): Workflow
      reads this
    {
      Workflow(status, revisionCount, maxRounds, versions, finalVersion, rows, evidence)
    }

    method AdvanceWorkflow(bindingOk: bool) returns (error: Option<Error>)
      requires Inv(View())
      modifies this
      ensures error == ErrorOf(Advance(old(View()), bindingOk))
      ensures View() == Step(old(View()), AdvanceJob(bindingOk))
      ensures Inv(View())
    {
      StepKeepsInv(View(), AdvanceJob(bindingOk));
      if !bindingOk { return Some(NotEligible); }
      match status {
        case DecisionApprovalVerified =>
          rows, status := StartOnce(rows, Strategy), ContentStrategyRunning;
        case ContentStrategyRunning =>
          if Newest(rows, Strategy).None? { return Some(NotReady); }
          status := ContentStrategyReady;
          status := BriefReady;
          rows, status := StartOnce(rows, Writer(|versions| + 1)), ProductionRunning;
        case ProductionRunning =>
          error := MaterializeVersion();
          return;
        case AssetControllersRunning =>
          error := Review();
          return;
        case _ =>
      }
      return None;
    }

    method MaterializeVersion() returns (error: Option<Error>)
      requires status.ProductionRunning?
      modifies this
      ensures error == ErrorOf(Advance(old(View()), true))
      ensures View() == Step(old(View()), AdvanceJob(true))
    {
      var number := |versions| + 1;
      var o := Newest(rows, Writer(number));
      if o.None? || !o.value.DraftOutput? { return Some(NotReady); }
      var run, d := RunIndex(rows, Writer(number)), o.value.draft;
      versions := versions + [AssetVersion(number, d, run, if d.origin.Generated? then Some(run) else None, [])];
      finalVersion, status := Some(number), AssetVersionReady;
      rows := EnsureControllerRuns(rows, number);
      status := AssetControllersRunning;
      return None;
    }

    method Review() returns (error: Option<Error>)
      requires status.AssetControllersRunning?
      modifies this
      ensures error == ErrorOf(Advance(old(View()), true))
      ensures View() == Step(old(View()), AdvanceJob(true))
    {
      if |versions| == 0 { return Some(NotFound); }
      var n := |versions| - 1;
      var reviews := MaterializeReviews(rows, |versions|);
      if reviews.Err? { return Some(reviews.error); }
      var outcome := AssetOutcome(versions[n], evidence, reviews.value);
      if outcome.Err? { return Some(outcome.error); }
      versions := versions[n := versions[n].(reviews := reviews.value)];
      Conclude(outcome.value);
      return None;
    }

    method Conclude(outcome: V.Verdict)
      requires status.AssetControllersRunning? && |versions| > 0
      modifies this
      ensures View() == Concluded(old(View()), outcome)
    {
      match outcome {
        case Block => status := Blocked;
        case Pass =>
          status := ProductionReady;
          finalVersion := Some(|versions|);
          status := ReadyForActionProposal;
        case _ =>
          if revisionCount >= maxRounds {
            status := Escalated;
          } else {
            revisionCount, status := revisionCount + 1, RevisionRequired;
            rows := StartOnce(rows, Writer(|versions| + 1));
            status := ProductionRunning;
          }
      }
    }
  }
}
