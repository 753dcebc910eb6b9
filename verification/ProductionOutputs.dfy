/**
 What the writer and the asset controllers said decides (application/production_workflow.py,
 production/materialization.py, production/governance.py): versions and reviews are the outputs of their runs
 and nothing else, and the seven outputs determine where the workflow goes.
 */
module ProductionOutputs {
  import opened Basics
  import opened RunTable
  import opened ProductionWorkflow
  import V = Verdicts

  /** Controller k of a version has had its say. */
  predicate Said(rows: Rows, version: nat, k: nat, o: Output)
    requires k < 7
  {
    o.ReviewOutput? && Settled(rows, Controller(version, REQUIRED[k]), o)
  }

  /** The review row keeps what controller k put out; required changes are conditions only of a conditional pass. */
  predicate Stored(r: AssetReview, o: Output, k: nat)
    requires k < 7
  {
    && o.ReviewOutput? && r.controller == REQUIRED[k] && r.verdict == o.verdict
    && r.requiredChanges == o.requiredChanges
    && (o.verdict == V.PassWithConditions ==> r.conditions == o.requiredChanges)
    && (o.verdict != V.PassWithConditions ==> r.conditions == [])
  }

  ghost predicate ReviewStored(rows: Rows, version: nat, r: AssetReview, k: nat)
    requires k < 7
  {
    exists o :: Said(rows, version, k, o) && Stored(r, o, k)
  }

  ghost predicate ReviewsStored(rows: Rows, version: nat, reviews: seq<AssetReview>) {
    |reviews| == 7 && forall k :: 0 <= k < 7 ==> ReviewStored(rows, version, reviews[k], k)
  }

  /** A version is its writer's draft, and once reviewed it has the seven controllers' reviews. */
  ghost predicate VersionStored(rows: Rows, v: AssetVersion) {
    && Settled(rows, Writer(v.number), DraftOutput(v.draft))
    && (v.reviews != [] ==> ReviewsStored(rows, v.number, v.reviews))
  }

  ghost predicate AllStored(w: Workflow) {
    forall i :: 0 <= i < |w.versions| ==> VersionStored(w.rows, w.versions[i])
  }

  /** A usable output is of its slot's kind, and a controller's is its own. */
  predicate Fits(row: Row<Slot, Output>) {
    row.state.Usable? ==>
      match row.slot
      case Strategy => row.state.output == StrategyOutput
      case Writer(_) => row.state.output.DraftOutput?
      case Controller(_, c) => row.state.output.ReviewOutput? && row.state.output.controller == c
  }

  predicate RunsOk(rows: Rows) { forall i :: 0 <= i < |rows| ==> Fits(rows[i]) }

  /** Nothing stands in the workflow that no run has put out. */
  ghost predicate Grounded(w: Workflow) { AllStored(w) && RunsOk(w.rows) && InPlace(w) }

  /** Writers run up to the version being written, controllers only on versions that exist. */
  predicate InPlace(w: Workflow) {
    forall i :: 0 <= i < |w.rows| ==>
      match w.rows[i].slot
      case Strategy => true
      case Writer(v) => v <= |w.versions| + if w.status.ProductionRunning? then 1 else 0
      case Controller(v, _) => v <= |w.versions|
  }

  /** Rows are added as pending runs of writers and controllers of this version. */
  predicate Added(a: Rows, b: Rows, version: nat) {
    && a <= b
    && forall i :: |a| <= i < |b| ==> b[i].slot == Strategy || b[i].slot == Writer(version) ||
                                      (b[i].slot.Controller? && b[i].slot.version == version)
  }

  lemma {:induction false} StartAllAdds(rows: Rows, version: nat, n: nat)
    requires n <= |REQUIRED|
    ensures Added(rows, StartAll(rows, version, n), version)
    ensures forall i :: |rows| <= i < |StartAll(rows, version, n)| ==> StartAll(rows, version, n)[i].slot.Controller?
  {
    if n > 0 { StartAllAdds(rows, version, n - 1); }
  }

  // ------------------------------------------------------------ outputs stay what they are

  ghost predicate KeepsSettled(a: Rows, b: Rows) {
    forall slot, o :: Settled(a, slot, o) ==> Settled(b, slot, o)
  }

  lemma StoredStays(a: Rows, b: Rows, v: AssetVersion)
    requires KeepsSettled(a, b) && VersionStored(a, v)
    ensures VersionStored(b, v)
  {
    if v.reviews != [] {
      forall k | 0 <= k < 7
        ensures ReviewStored(b, v.number, v.reviews[k], k)
      {
        assert ReviewStored(a, v.number, v.reviews[k], k);
        var r :| Said(a, v.number, k, r) && Stored(v.reviews[k], r, k);
        assert Said(b, v.number, k, r);
      }
    }
  }

  lemma RowsReplaced(w: Workflow, v: Workflow)
    requires AllStored(w) && v.versions == w.versions && KeepsSettled(w.rows, v.rows)
    ensures AllStored(v)
  {
    forall i | 0 <= i < |v.versions|
      ensures VersionStored(v.rows, v.versions[i])
    {
      StoredStays(w.rows, v.rows, w.versions[i]);
    }
  }

  lemma HasRun(rows: Rows, slot: Slot, o: Output)
    requires HasOutput(rows, slot, o)
    ensures Count(rows, slot) > 0
  {
    var i :| 0 <= i < |rows| && LastUsable(rows, slot, o, i);
    CountPositive(rows, i);
  }

  lemma StartOnceSettles(rows: Rows, slot: Slot)
    ensures KeepsSettled(rows, StartOnce(rows, slot))
    ensures RunsOk(rows) ==> RunsOk(StartOnce(rows, slot))
  {
    forall s, o | Settled(rows, s, o)
      ensures Settled(StartOnce(rows, slot), s, o)
    {
      HasRun(rows, s, o);
      if StartOnce(rows, slot) != rows {
        SettledGrows(rows, s, o, Row(slot, Pending));
      }
    }
  }

  lemma {:induction false} StartAllSettles(rows: Rows, version: nat, n: nat)
    requires n <= |REQUIRED|
    ensures KeepsSettled(rows, StartAll(rows, version, n))
    ensures RunsOk(rows) ==> RunsOk(StartAll(rows, version, n))
  {
    if n > 0 {
      StartAllSettles(rows, version, n - 1);
      StartOnceSettles(StartAll(rows, version, n - 1), Controller(version, REQUIRED[n - 1]));
    }
  }

  /** A slot with one run and an output is settled. */
  lemma OneRunSettles(rows: Rows, slot: Slot, o: Output)
    requires Disciplined(rows, 1) && Newest(rows, slot) == Some(o)
    ensures Settled(rows, slot, o)
  {
    NewestIff(rows, slot, o);
    var i :| 0 <= i < |rows| && LastUsable(rows, slot, o, i);
    CountIsSize(rows, slot);
    forall k | 0 <= k < |rows| && rows[k].slot == slot
      ensures k == i
    {
      assert Count(rows, rows[i].slot) <= 1;
      if k != i {
        assert {i, k} <= RunsOf(rows, slot);
        SmallSet({i, k}, RunsOf(rows, slot));
      }
    }
  }

  lemma {:induction false} SmallSet(a: set<nat>, b: set<nat>)
    requires a <= b
    ensures |a| <= |b|
  {
    if a != {} {
      var x :| x in a;
      SmallSet(a - {x}, b - {x});
    }
  }

  lemma {:induction false} ReviewsAreStored(rows: Rows, version: nat, n: nat)
    requires n <= 7 && Disciplined(rows, 1) && Reviews(rows, version, n).Ok?
    ensures
      var rs := Reviews(rows, version, n).value;
      |rs| == n && forall k :: 0 <= k < n ==> ReviewStored(rows, version, rs[k], k)
  {
    if n > 0 {
      ReviewsAreStored(rows, version, n - 1);
      var slot := Controller(version, REQUIRED[n - 1]);
      var rs, o := Reviews(rows, version, n).value, Newest(rows, slot).value;
      OneRunSettles(rows, slot, o);
      assert Said(rows, version, n - 1, o) && Stored(rs[n - 1], o, n - 1);
      assert ReviewStored(rows, version, rs[n - 1], n - 1);
    }
  }

  lemma WithReviewsStored(w: Workflow, reviews: seq<AssetReview>)
    requires AllStored(w) && |w.versions| > 0
    requires ReviewsStored(w.rows, w.versions[|w.versions| - 1].number, reviews)
    ensures AllStored(WithReviews(w, reviews))
  {
    var v := WithReviews(w, reviews);
    forall i | 0 <= i < |v.versions|
      ensures VersionStored(v.rows, v.versions[i])
    {
      assert VersionStored(w.rows, w.versions[i]);
    }
  }

  lemma ConcludedGrounded(w: Workflow, outcome: V.Verdict)
    requires Grounded(w) && |w.versions| > 0 && !w.status.ProductionRunning?
    ensures Grounded(Concluded(w, outcome))
  {
    var v := Concluded(w, outcome);
    StartOnceSettles(w.rows, Writer(|w.versions| + 1));
    assert KeepsSettled(w.rows, w.rows);
    RowsReplaced(w, v);
  }

  lemma ReviewingGrounded(w: Workflow)
    requires Inv(w) && Grounded(w) && w.status.AssetControllersRunning? && Advance(w, true).Ok?
    ensures Grounded(Advance(w, true).value)
  {
    var reviews, outcome := ReviewingIs(w);
    ReviewsAreStored(w.rows, |w.versions|, 7);
    WithReviewsStored(w, reviews);
    ConcludedGrounded(WithReviews(w, reviews), outcome);
  }

  lemma ReviewingIs(w: Workflow) returns (reviews: seq<AssetReview>, outcome: V.Verdict)
    requires w.status.AssetControllersRunning? && Advance(w, true).Ok?
    ensures |w.versions| > 0 && Reviews(w.rows, |w.versions|, 7) == Ok(reviews)
    ensures Advance(w, true) == Ok(Concluded(WithReviews(w, reviews), outcome))
  {
    reviews := Reviews(w.rows, |w.versions|, 7).value;
    outcome := AssetOutcome(w.versions[|w.versions| - 1], w.evidence, reviews).value;
  }

  lemma WritingGrounded(w: Workflow)
    requires Inv(w) && Grounded(w) && w.status.ProductionRunning? && Advance(w, true).Ok?
    ensures Grounded(Advance(w, true).value)
  {
    var v, number := Advance(w, true).value, |w.versions| + 1;
    OneRunSettles(w.rows, Writer(number), Newest(w.rows, Writer(number)).value);
    StartAllSettles(w.rows, number, 7);
    StartAllAdds(w.rows, number, 7);
    forall i | 0 <= i < |v.versions|
      ensures VersionStored(v.rows, v.versions[i])
    {
      if i < |w.versions| { StoredStays(w.rows, v.rows, w.versions[i]); }
    }
  }

  lemma AdvanceGrounded(w: Workflow)
    requires Inv(w) && Grounded(w) && Advance(w, true).Ok?
    ensures Grounded(Advance(w, true).value)
  {
    match w.status {
      case ProductionRunning => WritingGrounded(w);
      case AssetControllersRunning => ReviewingGrounded(w);
      case DecisionApprovalVerified => StartOnceSettles(w.rows, Strategy); RowsReplaced(w, Advance(w, true).value);
      case ContentStrategyRunning =>
        StartOnceSettles(w.rows, Writer(|w.versions| + 1));
        RowsReplaced(w, Advance(w, true).value);
      case _ =>
    }
  }

  lemma FinishGrounded(w: Workflow, i: nat, o: Option<Output>)
    requires Grounded(w)
    ensures Grounded(RunFinished(w, i, o))
  {
    var v := RunFinished(w, i, o);
    if v != w {
      forall s, r | Settled(w.rows, s, r)
        ensures Settled(v.rows, s, r)
      {
        FinishKeepsSettled(w.rows, i, v.rows[i].state, s, r);
      }
      RowsReplaced(w, v);
      forall k | 0 <= k < |v.rows|
        ensures Fits(v.rows[k])
      {
        assert Fits(w.rows[k]);
      }
    }
  }

  /** One step keeps versions and reviews what the runs put out. */
  lemma StepKeepsGrounded(w: Workflow, e: Event)
    requires Inv(w) && Grounded(w)
    ensures Grounded(Step(w, e))
  {
    match e {
      case AdvanceJob(ok) => if ok && Advance(w, true).Ok? { AdvanceGrounded(w); }
      case RunEnds(i, o) => FinishGrounded(w, i, o);
      case EvidenceRecorded(_) => RowsReplaced(w, Step(w, e));
    }
  }

  lemma {:induction false} EveryRunGrounded(maxRounds: nat, evidence: set<nat>, es: seq<Event>)
    ensures Grounded(Run(Started(maxRounds, evidence), es))
  {
    if |es| > 0 {
      EveryRunGrounded(maxRounds, evidence, es[..|es| - 1]);
      EveryRunKeepsInv(maxRounds, evidence, es[..|es| - 1]);
      StepKeepsGrounded(Run(Started(maxRounds, evidence), es[..|es| - 1]), es[|es| - 1]);
    }
  }

  // ------------------------------------------------------------ READY, over the outputs

  /** Controller k let this version pass: no BLOCK, no REVISE, and no condition that says something. */
  ghost predicate SaidClear(rows: Rows, version: nat, k: nat)
    requires k < 7
  {
    exists o ::
      && Said(rows, version, k, o) && o.controller == REQUIRED[k]
      && o.verdict in {V.Pass, V.PassWithConditions}
      && (o.verdict == V.PassWithConditions ==> forall c :: c in o.requiredChanges ==> V.SaysNothing(c))
  }

  lemma SaidByItself(rows: Rows, version: nat, k: nat, o: Output)
    requires RunsOk(rows) && k < 7 && Said(rows, version, k, o)
    ensures o.controller == REQUIRED[k]
  {
    var i :| 0 <= i < |rows| && LastUsable(rows, Controller(version, REQUIRED[k]), o, i);
    assert Fits(rows[i]);
  }

  /** READY stands on the outputs themselves: the final version is its writer's draft, and each of the seven
      controllers let it pass. */
  lemma ReadyMeansClear(w: Workflow, k: nat)
    requires Inv(w) && Grounded(w) && w.status.ReadyForActionProposal? && k < 7
    ensures
      && |w.versions| > 0 && SaidClear(w.rows, |w.versions|, k)
      && Settled(w.rows, Writer(|w.versions|), DraftOutput(w.versions[|w.versions| - 1].draft))
  {
    var last := w.versions[|w.versions| - 1];
    assert VersionStored(w.rows, last);
    assert last.reviews != [] by {
      assert REQUIRED[0] in REQUIRED;
    }
    assert ReviewStored(w.rows, last.number, last.reviews[k], k);
    var o :| Said(w.rows, last.number, k, o) && Stored(last.reviews[k], o, k);
    SaidByItself(w.rows, last.number, k, o);
    if o.verdict == V.PassWithConditions {
      forall c | c in o.requiredChanges
        ensures V.SaysNothing(c)
      {
        V.BlankIsWhite(c);
        assert c in last.reviews[k].conditions + last.reviews[k].requiredChanges;
      }
    }
  }

  // ------------------------------------------------------------ where the outputs lead

  /** A claim that needs evidence names none or none that is recorded, or the text looks risky and no claim
      names any evidence. */
  predicate Unsupported(d: Draft, evidence: set<nat>) {
    || (exists i :: 0 <= i < |d.claims| && d.claims[i].needsEvidence
                    && !(d.claims[i].evidence.Some? && d.claims[i].evidence.value in evidence))
    || (d.riskyMarker && forall i :: 0 <= i < |d.claims| ==> d.claims[i].evidence.None?)
  }

  predicate Conditional(o: Output) {
    o.ReviewOutput? && o.verdict == V.PassWithConditions && exists c :: c in o.requiredChanges && !V.SaysNothing(c)
  }

  predicate AnySays(os: seq<Output>, verdict: V.Verdict) {
    exists k :: 0 <= k < |os| && os[k].ReviewOutput? && os[k].verdict == verdict
  }

  /** The text itself comes first, then support and rights, then what the controllers said. */
  ghost function Outcome(d: Draft, evidence: set<nat>, os: seq<Output>): V.Verdict {
    if d.worthMapping || d.manipulative then V.Block
    else if Unsupported(d, evidence) || (d.origin != Generated && !d.permissionScope) then V.Revise
    else if AnySays(os, V.Block) then V.Block
    else if AnySays(os, V.Revise) then V.Revise
    else if exists k :: 0 <= k < |os| && Conditional(os[k]) then V.PassWithConditions
    else V.Pass
  }

  /** What each outcome does to the workflow. */
  predicate Follows(w: Workflow, outcome: V.Verdict, r: Result<Workflow>) {
    && r.Ok? && |r.value.versions| == |w.versions| > 0
    && r.value.versions[..|w.versions| - 1] == w.versions[..|w.versions| - 1]
    && (var a, b := w.versions[|w.versions| - 1], r.value.versions[|w.versions| - 1]; b == a.(reviews := b.reviews))
    && match outcome
       case Block => r.value.status == Blocked && r.value.rows == w.rows
       case Pass => r.value.status == ReadyForActionProposal && r.value.finalVersion == Some(|w.versions|)
       case _ =>
         if w.revisionCount >= w.maxRounds then r.value.status == Escalated
         else
           && r.value.status == ProductionRunning && r.value.revisionCount == w.revisionCount + 1
           && r.value.rows == w.rows + [Row(Writer(|w.versions| + 1), Pending)]
  }

  predicate AllSaid(rows: Rows, version: nat, os: seq<Output>) {
    |os| == 7 && forall k :: 0 <= k < 7 ==> Said(rows, version, k, os[k])
  }

  lemma {:induction false} ReviewsOfSaid(rows: Rows, version: nat, os: seq<Output>, n: nat)
    requires RunsOk(rows) && AllSaid(rows, version, os) && n <= 7
    ensures
      var r := Reviews(rows, version, n);
      && r.Ok? && |r.value| == n && forall k :: 0 <= k < n ==> Stored(r.value[k], os[k], k)
  {
    if n > 0 {
      ReviewsOfSaid(rows, version, os, n - 1);
      var slot := Controller(version, REQUIRED[n - 1]);
      NewestIff(rows, slot, os[n - 1]);
      SaidByItself(rows, version, n - 1, os[n - 1]);
      assert Stored(ReviewOf(os[n - 1]), os[n - 1], n - 1);
    }
  }

  lemma ConditionOfOutput(r: AssetReview, o: Output, k: nat)
    requires k < 7 && Stored(r, o, k)
    ensures r.verdict == V.PassWithConditions && V.Mandatory(r.conditions, r.requiredChanges) <==> Conditional(o)
  {
    forall v | v in r.conditions + r.requiredChanges
      ensures V.Blank(v) <==> V.SaysNothing(v)
    {
      V.BlankIsWhite(v);
    }
    if o.verdict == V.PassWithConditions {
      assert forall v :: v in r.conditions + r.requiredChanges <==> v in o.requiredChanges;
    }
  }

  lemma AllAreThere(reviews: seq<AssetReview>, os: seq<Output>)
    requires |reviews| == |os| == 7 && forall k :: 0 <= k < 7 ==> Stored(reviews[k], os[k], k)
    ensures AllPresent(reviews)
  {
    forall c | c in REQUIRED
      ensures exists i :: 0 <= i < |reviews| && reviews[i].controller == c
    {
      var i :| 0 <= i < |REQUIRED| && REQUIRED[i] == c;
      assert reviews[i].controller == c;
    }
  }

  lemma OutcomeOfOutputs(v: AssetVersion, evidence: set<nat>, reviews: seq<AssetReview>, os: seq<Output>)
    requires |reviews| == |os| == 7 && forall k :: 0 <= k < 7 ==> Stored(reviews[k], os[k], k)
    requires v.draft.origin.Generated? ==> v.rightsRun == Some(v.creatorRun)
    ensures AssetOutcome(v, evidence, reviews) == Ok(Outcome(v.draft, evidence, os))
  {
    AllAreThere(reviews, os);
    forall k | 0 <= k < 7
      ensures reviews[k].verdict == os[k].verdict
      ensures
        reviews[k].verdict == V.PassWithConditions && V.Mandatory(reviews[k].conditions, reviews[k].requiredChanges)
        <==> Conditional(os[k])
    {
      ConditionOfOutput(reviews[k], os[k], k);
    }
    assert UnsupportedClaims(v.draft, evidence) <==> Unsupported(v.draft, evidence);
    SameVerdicts(reviews, os, V.Block);
    SameVerdicts(reviews, os, V.Revise);
    assert UnmetCondition(reviews) <==> exists k :: 0 <= k < 7 && Conditional(os[k]);
  }

  lemma SameVerdicts(reviews: seq<AssetReview>, os: seq<Output>, verdict: V.Verdict)
    requires |reviews| == |os| == 7 && forall k :: 0 <= k < 7 ==> Stored(reviews[k], os[k], k)
    ensures HasVerdict(reviews, verdict) <==> AnySays(os, verdict)
  {
    if HasVerdict(reviews, verdict) {
      var i :| 0 <= i < |reviews| && reviews[i].verdict == verdict;
      assert Stored(reviews[i], os[i], i);
    }
    if AnySays(os, verdict) {
      var i :| 0 <= i < |os| && os[i].ReviewOutput? && os[i].verdict == verdict;
      assert Stored(reviews[i], os[i], i);
    }
  }

  lemma ConcludedFollows(w: Workflow, outcome: V.Verdict, reviews: seq<AssetReview>)
    requires |w.versions| > 0 && InPlace(w) && !w.status.ProductionRunning?
    ensures Follows(w, outcome, Ok(Concluded(WithReviews(w, reviews), outcome)))
  {
    forall i | 0 <= i < |w.rows|
      ensures w.rows[i].slot != Writer(|w.versions| + 1)
    {
    }
    NoRowsNoCount(w.rows, Writer(|w.versions| + 1));
  }

  /** In every reachable state in which all seven controllers of the newest version have had their say, the next
      advance is determined by the text, its support and rights, and what the controllers said, in that order. */
  lemma OutputsDetermineAdvance(maxRounds: nat, evidence: set<nat>, es: seq<Event>, os: seq<Output>)
    requires
      var w := Run(Started(maxRounds, evidence), es);
      w.status.AssetControllersRunning? && AllSaid(w.rows, |w.versions|, os)
    ensures
      var w := Run(Started(maxRounds, evidence), es);
      && |w.versions| > 0
      && Follows(w, Outcome(w.versions[|w.versions| - 1].draft, w.evidence, os), Advance(w, true))
  {
    EveryRunKeepsInv(maxRounds, evidence, es);
    EveryRunGrounded(maxRounds, evidence, es);
    OutputsDecide(Run(Started(maxRounds, evidence), es), os);
  }

  lemma OutputsDecide(w: Workflow, os: seq<Output>)
    requires Inv(w) && Grounded(w) && w.status.AssetControllersRunning? && AllSaid(w.rows, |w.versions|, os)
    ensures Follows(w, Outcome(w.versions[|w.versions| - 1].draft, w.evidence, os), Advance(w, true))
  {
    var n := |w.versions|;
    ReviewsOfSaid(w.rows, n, os, 7);
    var reviews := Reviews(w.rows, n, 7).value;
    OutcomeOfOutputs(w.versions[n - 1], w.evidence, reviews, os);
    var outcome := Outcome(w.versions[n - 1].draft, w.evidence, os);
    ReviewedIs(w, reviews, outcome);
    ConcludedFollows(w, outcome, reviews);
  }

  lemma ReviewedIs(w: Workflow, reviews: seq<AssetReview>, outcome: V.Verdict)
    requires w.status.AssetControllersRunning? && |w.versions| > 0 && Reviews(w.rows, |w.versions|, 7) == Ok(reviews)
    requires AssetOutcome(w.versions[|w.versions| - 1], w.evidence, reviews) == Ok(outcome)
    ensures Advance(w, true) == Ok(Concluded(WithReviews(w, reviews), outcome))
  {}

  /** The evidence a draft is held against: what the workflow started with and what was recorded since. */
  lemma {:induction false} EvidenceIs(maxRounds: nat, evidence: set<nat>, es: seq<Event>, id: nat)
    ensures id in Run(Started(maxRounds, evidence), es).evidence <==>
      id in evidence || exists k :: 0 <= k < |es| && es[k] == EvidenceRecorded(id)
  {
    if |es| > 0 {
      var p, e := es[..|es| - 1], es[|es| - 1];
      EvidenceIs(maxRounds, evidence, p, id);
      if k :| 0 <= k < |p| && p[k] == EvidenceRecorded(id) {
        assert es[k] == EvidenceRecorded(id);
      }
      if k :| 0 <= k < |es| && es[k] == EvidenceRecorded(id) {
        assert k < |p| ==> p[k] == EvidenceRecorded(id);
      }
    }
  }
}
