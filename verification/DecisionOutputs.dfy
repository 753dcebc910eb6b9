/**
 What the agents said decides (application/decision_workflow.py, decision_governance.py): candidates and
 reviews are the outputs of their runs and nothing else, and the seven controller outputs determine where
 the workflow goes.
 */
module DecisionOutputs {
  import opened Basics
  import opened RunTable
  import opened DecisionWorkflow
  import V = Verdicts

  /** Controller k of a candidate version has had its say. */
  predicate Said(rows: Rows, version: nat, k: nat, o: Output)
    requires k < 7
  {
    o.ControllerOutput? && Settled(rows, Controller(version, V.REQUIRED[k]), o)
  }

  /** The review row keeps what controller k put out; required changes are conditions only of a conditional pass. */
  predicate Stored(r: V.Review, o: Output, k: nat)
    requires k < 7
  {
    && o.ControllerOutput? && r.controller == V.REQUIRED[k] && r.verdict == o.verdict
    && r.requiredChanges == o.requiredChanges && r.missingInfoOnly == o.missingInfoOnly
    && (o.verdict == V.PassWithConditions ==> r.conditions == o.requiredChanges)
    && (o.verdict != V.PassWithConditions ==> r.conditions == [])
  }

  ghost predicate ReviewStored(rows: Rows, version: nat, r: V.Review, k: nat)
    requires k < 7
  {
    exists o :: Said(rows, version, k, o) && Stored(r, o, k)
  }

  ghost predicate ReviewsStored(rows: Rows, version: nat, reviews: seq<V.Review>) {
    |reviews| == 7 && forall k :: 0 <= k < 7 ==> ReviewStored(rows, version, reviews[k], k)
  }

  /** A candidate is its chief's output, and once reviewed it has the seven controllers' reviews. */
  ghost predicate CandidateStored(rows: Rows, c: Candidate) {
    && (exists o :: Proposed(rows, c, o))
    && (c.reviews != [] ==> ReviewsStored(rows, c.version, c.reviews))
  }

  predicate Proposed(rows: Rows, c: Candidate, o: Output) {
    && o.ChiefOutput? && Settled(rows, Chief(c.version), o)
    && c.body == o.candidate && c.worthWords == o.worthWords
  }

  ghost predicate AllStored(w: Workflow) {
    forall i :: 0 <= i < |w.candidates| ==> CandidateStored(w.rows, w.candidates[i])
  }

  // ------------------------------------------------------------ outputs stay what they are

  /** Whatever is settled in one table is in the other. */
  ghost predicate KeepsSettled(a: Rows, b: Rows) {
    forall slot, o :: Settled(a, slot, o) ==> Settled(b, slot, o)
  }

  lemma StoredStays(a: Rows, b: Rows, c: Candidate)
    requires KeepsSettled(a, b) && CandidateStored(a, c)
    ensures CandidateStored(b, c)
  {
    var o :| Proposed(a, c, o);
    assert Proposed(b, c, o);
    if c.reviews != [] {
      forall k | 0 <= k < 7
        ensures ReviewStored(b, c.version, c.reviews[k], k)
      {
        assert ReviewStored(a, c.version, c.reviews[k], k);
        var r :| Said(a, c.version, k, r) && Stored(c.reviews[k], r, k);
        assert Said(b, c.version, k, r);
      }
    }
  }

  lemma EnsureSlotSettles(rows: Rows, slot: Slot)
    requires EnsureSlot(rows, slot, OUTPUT_ATTEMPTS).Ok?
    ensures KeepsSettled(rows, EnsureSlot(rows, slot, OUTPUT_ATTEMPTS).value)
  {
    forall s, o | Settled(rows, s, o)
      ensures Settled(EnsureSlot(rows, slot, OUTPUT_ATTEMPTS).value, s, o)
    {
      EnsureSlotKeepsSettled(rows, slot, OUTPUT_ATTEMPTS, s, o);
    }
  }

  lemma EnsureAllSettles(rows: Rows, slots: seq<Slot>)
    requires EnsureAll(rows, slots, OUTPUT_ATTEMPTS).Ok?
    ensures KeepsSettled(rows, EnsureAll(rows, slots, OUTPUT_ATTEMPTS).value)
  {
    forall s, o | Settled(rows, s, o)
      ensures Settled(EnsureAll(rows, slots, OUTPUT_ATTEMPTS).value, s, o)
    {
      EnsureAllKeepsSettled(rows, slots, OUTPUT_ATTEMPTS, s, o);
    }
  }

  lemma {:induction false} ReviewsAreStored(rows: Rows, version: nat, n: nat)
    requires n <= 7 && Reviews(rows, version, n).Ok?
    requires forall k :: 0 <= k < n ==> Ready(rows, Controller(version, V.REQUIRED[k]))
    ensures
      var rs := Reviews(rows, version, n).value;
      |rs| == n && forall k :: 0 <= k < n ==> ReviewStored(rows, version, rs[k], k)
  {
    if n > 0 {
      ReviewsAreStored(rows, version, n - 1);
      var slot := Controller(version, V.REQUIRED[n - 1]);
      ReadyIsSettled(rows, slot);
      var rs, o := Reviews(rows, version, n).value, Newest(rows, slot).value;
      assert Said(rows, version, n - 1, o) && Stored(rs[n - 1], o, n - 1);
      assert ReviewStored(rows, version, rs[n - 1], n - 1);
    }
  }

  /** Only the last candidate differs, in status and reviews. */
  lemma WithLastStored(w: Workflow, status: CandidateStatus, reviews: seq<V.Review>)
    requires AllStored(w) && |w.candidates| > 0
    requires ReviewsStored(w.rows, w.candidates[|w.candidates| - 1].version, reviews)
    ensures AllStored(WithLast(w, status, reviews))
  {
    var v, n := WithLast(w, status, reviews), |w.candidates| - 1;
    forall i | 0 <= i < |v.candidates|
      ensures CandidateStored(v.rows, v.candidates[i])
    {
      assert CandidateStored(w.rows, w.candidates[i]);
      if i == n {
        var o :| Proposed(w.rows, w.candidates[n], o);
        assert Proposed(v.rows, v.candidates[n], o);
      }
    }
  }

  lemma RowsReplaced(w: Workflow, v: Workflow)
    requires AllStored(w) && v.candidates == w.candidates && KeepsSettled(w.rows, v.rows)
    ensures AllStored(v)
  {
    forall i | 0 <= i < |v.candidates|
      ensures CandidateStored(v.rows, v.candidates[i])
    {
      StoredStays(w.rows, v.rows, w.candidates[i]);
    }
  }

  lemma RevisionStores(v: Workflow)
    requires AllStored(v) && ToChief(v).Ok?
    ensures AllStored(ToChief(v).value)
  {
    EnsureSlotSettles(v.rows, Chief(|v.candidates| + 1));
    RowsReplaced(v, ToChief(v).value);
  }

  lemma ConcludedStores(w: Workflow, outcome: V.Verdict, reviews: seq<V.Review>)
    requires AllStored(w) && |w.candidates| > 0 && Concluded(w, outcome, reviews).Ok?
    requires ReviewsStored(w.rows, w.candidates[|w.candidates| - 1].version, reviews)
    ensures AllStored(Concluded(w, outcome, reviews).value)
  {
    match outcome {
      case Block => WithLastStored(w, CandidateBlocked, reviews);
      case Pass => WithLastStored(w, Materialized, reviews);
      case _ =>
        WithLastStored(w, NeedsRevision, reviews);
        if w.revisionCount < w.maxRounds {
          RevisionStores(WithLast(w, NeedsRevision, reviews).(revisionCount := w.revisionCount + 1));
        }
    }
  }

  lemma ReadyReviewsStored(rows: Rows, version: nat)
    requires AllReady(rows, ControllerSlots(version)) && Reviews(rows, version, 7).Ok?
    ensures ReviewsStored(rows, version, Reviews(rows, version, 7).value)
  {
    forall k | 0 <= k < 7
      ensures Ready(rows, Controller(version, V.REQUIRED[k]))
    {
      assert ControllerSlots(version)[k] == Controller(version, V.REQUIRED[k]);
    }
    ReviewsAreStored(rows, version, 7);
  }

  lemma DecideStores(w: Workflow)
    requires AllStored(w) && |w.candidates| > 0 && Decide(w).Ok?
    requires AllReady(w.rows, ControllerSlots(w.candidates[|w.candidates| - 1].version))
    ensures AllStored(Decide(w).value)
  {
    var last := w.candidates[|w.candidates| - 1];
    ReadyReviewsStored(w.rows, last.version);
    var reviews := Reviews(w.rows, last.version, 7).value;
    ConcludedStores(w, V.GovernedOutcome(last.body, reviews).value, reviews);
  }

  lemma NewCandidateStored(w: Workflow)
    requires Inv(w) && AllStored(w) && w.status.ChiefRunning? && Ready(w.rows, Chief(|w.candidates| + 1))
    requires ToControllers(w).Ok?
    ensures AllStored(ToControllers(w).value)
  {
    var version := |w.candidates| + 1;
    var v := ToControllers(w).value;
    EnsureAllSettles(w.rows, ControllerSlots(version));
    ReadyIsSettled(w.rows, Chief(version));
    forall i | 0 <= i < |v.candidates|
      ensures CandidateStored(v.rows, v.candidates[i])
    {
      if i < |w.candidates| {
        StoredStays(w.rows, v.rows, w.candidates[i]);
      } else {
        assert Proposed(v.rows, v.candidates[i], Newest(w.rows, Chief(version)).value);
      }
    }
  }

  lemma AdvanceStores(w: Workflow)
    requires Inv(w) && AllStored(w) && Advance(w).Ok?
    ensures AllStored(Advance(w).value)
  {
    match w.status {
      case SnapshotReady => EnsureAllSettles(w.rows, SPECIALISTS); RowsReplaced(w, Advance(w).value);
      case SpecialistsRunning =>
        EnsureAllSettles(w.rows, SPECIALISTS);
        var u := w.(rows := EnsureAll(w.rows, SPECIALISTS, OUTPUT_ATTEMPTS).value);
        RowsReplaced(w, u);
        if AllReady(w.rows, SPECIALISTS) {
          EnsureSlotSettles(u.rows, Chief(|w.candidates| + 1));
          RowsReplaced(u, Advance(w).value);
        }
      case ChiefRunning =>
        var slot := Chief(|w.candidates| + 1);
        if Ready(w.rows, slot) {
          NewCandidateStored(w);
        } else {
          EnsureSlotSettles(w.rows, slot);
          RowsReplaced(w, Advance(w).value);
        }
      case ControllersRunning =>
        var slots := ControllerSlots(|w.candidates|);
        if AllReady(w.rows, slots) {
          DecideStores(w);
        } else {
          EnsureAllSettles(w.rows, slots);
          RowsReplaced(w, Advance(w).value);
        }
      case _ =>
    }
  }

  lemma FinishStores(w: Workflow, i: nat, a: Answer)
    requires AllStored(w)
    ensures AllStored(RunFinished(w, i, a))
  {
    var v := RunFinished(w, i, a);
    if v != w {
      forall s, o | Settled(w.rows, s, o)
        ensures Settled(v.rows, s, o)
      {
        FinishKeepsSettled(w.rows, i, v.rows[i].state, s, o);
      }
      RowsReplaced(w, v);
    }
  }

  /** In every run: every candidate is what its chief put out, every review what its controller put out. */
  lemma {:induction false} EveryRunStores(maxRounds: nat, es: seq<Event>)
    ensures AllStored(Run(Started(maxRounds), es))
  {
    if |es| > 0 {
      var w, e := Run(Started(maxRounds), es[..|es| - 1]), es[|es| - 1];
      EveryRunStores(maxRounds, es[..|es| - 1]);
      EveryRunKeepsInv(maxRounds, es[..|es| - 1]);
      match e {
        case AdvanceJob => if Advance(w).Ok? { AdvanceStores(w); }
        case RunEnds(i, a) => FinishStores(w, i, a);
        case OwnerApproves => RowsReplaced(w, Step(w, e));
      }
    }
  }

  // ------------------------------------------------------------ the seven outputs decide

  /** Objects to the candidate and is not waived. */
  predicate Objects(c: V.Candidate, o: Output, verdict: V.Verdict) {
    o.ControllerOutput? && o.verdict == verdict && !V.Waived(c, o.controller, verdict, o.missingInfoOnly)
  }

  /** Passes on a condition that says something. */
  predicate Conditional(o: Output) {
    o.ControllerOutput? && o.verdict == V.PassWithConditions && exists v :: v in o.requiredChanges && !V.SaysNothing(v)
  }

  ghost predicate AnyBlocks(c: V.Candidate, os: seq<Output>) {
    exists k :: 0 <= k < |os| && Objects(c, os[k], V.Block)
  }

  ghost predicate AnyRevises(c: V.Candidate, os: seq<Output>) {
    exists k :: 0 <= k < |os| && (Objects(c, os[k], V.Revise) || Conditional(os[k]))
  }

  /** A human-worth mapping that the constitutional controller let through. */
  predicate WorthMissed(c: V.Candidate, os: seq<Output>)
    requires |os| == 7
  {
    c.worthMapping && (os[2].ControllerOutput? ==> os[2].verdict != V.Block)
  }

  lemma ReadingOfOutput(c: V.Candidate, r: V.Review, o: Output, k: nat)
    requires k < 7 && Stored(r, o, k) && o.controller == V.REQUIRED[k]
    ensures V.Reading(c, r) == V.Block <==> Objects(c, o, V.Block)
    ensures V.Reading(c, r) == V.Revise <==> Objects(c, o, V.Revise)
    ensures V.Reading(c, r) == V.PassWithConditions <==> Conditional(o)
  {
    if o.verdict == V.PassWithConditions {
      assert forall v :: v in r.conditions + r.requiredChanges <==> v in o.requiredChanges;
    }
  }

  /** The governed outcome, read off the outputs. */
  /** The governed outcome of seven outputs. */
  ghost function Outcome(c: V.Candidate, os: seq<Output>): V.Verdict {
    if AnyBlocks(c, os) then V.Block
    else if exists k :: 0 <= k < |os| && Objects(c, os[k], V.Revise) then V.Revise
    else if AnyRevises(c, os) then V.PassWithConditions
    else V.Pass
  }

  lemma OutcomeOfOutputs(c: V.Candidate, reviews: seq<V.Review>, os: seq<Output>)
    requires |reviews| == |os| == 7 && V.Distinct(reviews)
    requires forall k :: 0 <= k < 7 ==> Stored(reviews[k], os[k], k) && os[k].controller == V.REQUIRED[k]
    ensures V.GovernedOutcome(c, reviews) ==
      if WorthMissed(c, os) then Err(ConstitutionalViolation) else Ok(Outcome(c, os))
  {
    V.GovernedIsWorstReading(c, reviews);
    V.WorstReadingIs(c, reviews);
    forall k | 0 <= k < 7
      ensures V.Reading(c, reviews[k]) == V.Block <==> Objects(c, os[k], V.Block)
      ensures V.Reading(c, reviews[k]) == V.Revise <==> Objects(c, os[k], V.Revise)
      ensures V.Reading(c, reviews[k]) == V.PassWithConditions <==> Conditional(os[k])
      ensures reviews[k].controller == V.Constitutional <==> k == 2
    {
      ReadingOfOutput(c, reviews[k], os[k], k);
    }
    var worst := V.WorstReading(c, reviews);
    if worst != V.Pass {
      var i :| 0 <= i < |reviews| && V.Reading(c, reviews[i]) == worst;
      assert 0 <= i < 7;
    }
  }

  // ------------------------------------------------------------ where the outputs lead

  /** All seven controllers of a version have had their say. */
  predicate AllSaid(rows: Rows, version: nat, os: seq<Output>) {
    |os| == 7 && forall k :: 0 <= k < 7 ==> Said(rows, version, k, os[k])
  }

  lemma SaidIsReady(rows: Rows, version: nat, k: nat, o: Output)
    requires k < 7 && Said(rows, version, k, o)
    ensures
      var slot := Controller(version, V.REQUIRED[k]);
      Ready(rows, slot) && Newest(rows, slot) == Some(o)
  {
    NewestIff(rows, Controller(version, V.REQUIRED[k]), o);
  }

  lemma AllSaidIsReady(rows: Rows, version: nat, os: seq<Output>)
    requires AllSaid(rows, version, os)
    ensures AllReady(rows, ControllerSlots(version))
    ensures EnsureAll(rows, ControllerSlots(version), OUTPUT_ATTEMPTS) == Ok(rows)
  {
    var slots := ControllerSlots(version);
    forall k | 0 <= k < 7
      ensures Ready(rows, slots[k])
    {
      SaidIsReady(rows, version, k, os[k]);
    }
    ReadyChangesNothing(rows, slots);
  }

  lemma {:induction false} ReadyChangesNothing(rows: Rows, slots: seq<Slot>)
    requires AllReady(rows, slots)
    ensures EnsureAll(rows, slots, OUTPUT_ATTEMPTS) == Ok(rows)
  {
    if |slots| > 0 {
      var front := slots[..|slots| - 1];
      assert forall i :: 0 <= i < |front| ==> front[i] == slots[i];
      ReadyChangesNothing(rows, front);
    }
  }

  lemma {:induction false} ReviewsOfSaid(rows: Rows, version: nat, os: seq<Output>, n: nat)
    requires AllSaid(rows, version, os) && n <= 7
    ensures
      var r := Reviews(rows, version, n);
      && r.Ok? && |r.value| == n && forall k :: 0 <= k < n ==> Stored(r.value[k], os[k], k)
  {
    if n > 0 {
      ReviewsOfSaid(rows, version, os, n - 1);
      SaidIsReady(rows, version, n - 1, os[n - 1]);
      var o := Newest(rows, Controller(version, V.REQUIRED[n - 1])).value;
      assert o == os[n - 1] && Stored(ReviewOf(version, n - 1, o), o, n - 1);
    }
  }

  /** Only the newest candidate differs, by its status and its reviews. */
  predicate OnlyLastChanged(w: Workflow, v: Workflow, status: CandidateStatus) {
    && |v.candidates| == |w.candidates| > 0 && v.candidates[..|w.candidates| - 1] == w.candidates[..|w.candidates| - 1]
    && var a, b := w.candidates[|w.candidates| - 1], v.candidates[|w.candidates| - 1];
       b == a.(status := status, reviews := b.reviews)
  }

  /** No run of the next chief exists before it is asked for. */
  lemma FirstRunStarts(rows: Rows, slot: Slot)
    requires forall i :: 0 <= i < |rows| ==> rows[i].slot != slot
    ensures EnsureSlot(rows, slot, OUTPUT_ATTEMPTS) == Ok(rows + [Row(slot, Pending)])
  {
    NoRowsNoCount(rows, slot);
    NewestIsOutput(rows, slot);
  }

  /** What each outcome does to the workflow. */
  predicate Follows(w: Workflow, outcome: V.Verdict, r: Result<Workflow>) {
    && r.Ok?
    && match outcome
       case Block =>
         && r.value.status == Blocked && r.value.decisions == w.decisions
         && OnlyLastChanged(w, r.value, CandidateBlocked)
       case Pass =>
         && r.value.status == AwaitingDecisionApproval && r.value.decisions == w.decisions + [|w.candidates|]
         && OnlyLastChanged(w, r.value, Materialized)
       case _ =>
         && r.value.decisions == w.decisions && OnlyLastChanged(w, r.value, NeedsRevision)
         && if w.revisionCount >= w.maxRounds then r.value.status == Escalated
            else
              && r.value.status == ChiefRunning && r.value.revisionCount == w.revisionCount + 1
              && r.value.rows == w.rows + [Row(Chief(|w.candidates| + 1), Pending)]
  }

  lemma ConcludedFollows(w: Workflow, outcome: V.Verdict, reviews: seq<V.Review>)
    requires |w.candidates| > 0 && w.candidates[|w.candidates| - 1].version == |w.candidates|
    requires forall i :: 0 <= i < |w.rows| ==> w.rows[i].slot != Chief(|w.candidates| + 1)
    ensures Follows(w, outcome, Concluded(w, outcome, reviews))
  {
    FirstRunStarts(w.rows, Chief(|w.candidates| + 1));
  }

  // ------------------------------------------------------------ what the runs hold

  /** A usable output is of its slot's kind; a chief's has an action; a controller's is its own, with references
      where evidence is judged, and a BLOCK of the constitution where the candidate speaks of human worth. */
  predicate Fits(w: Workflow, row: Row<Slot, Output>) {
    row.state.Usable? ==>
      match row.slot
      case Specialist(_) => row.state.output == SpecialistOutput
      case Chief(_) => row.state.output.ChiefOutput? && !row.state.output.actionBlank
      case Controller(v, c) =>
        && row.state.output.ControllerOutput? && row.state.output.controller == c
        && (c == V.Evidence ==> row.state.output.hasRefs)
        && (c == V.Constitutional && 1 <= v <= |w.candidates| && w.candidates[v - 1].worthWords ==>
              row.state.output.verdict == V.Block)
  }

  /** Chiefs run up to the version being written, controllers only on candidates that exist. */
  predicate InPlace(w: Workflow, row: Row<Slot, Output>) {
    match row.slot
    case Specialist(_) => true
    case Chief(v) => v <= |w.candidates| + if w.status.ChiefRunning? then 1 else 0
    case Controller(v, _) => v <= |w.candidates|
  }

  predicate RunsOk(w: Workflow) {
    forall i :: 0 <= i < |w.rows| ==> Fits(w, w.rows[i]) && InPlace(w, w.rows[i])
  }

  /** Rows are added as pending runs of the given slots. */
  predicate Added(a: Rows, b: Rows, slots: seq<Slot>) {
    && a <= b
    && forall i :: |a| <= i < |b| ==> b[i].state.Pending? && b[i].slot in slots
  }

  lemma {:induction false} EnsureAllAdds(rows: Rows, slots: seq<Slot>)
    requires EnsureAll(rows, slots, OUTPUT_ATTEMPTS).Ok?
    ensures Added(rows, EnsureAll(rows, slots, OUTPUT_ATTEMPTS).value, slots)
  {
    if |slots| > 0 {
      var front := slots[..|slots| - 1];
      EnsureAllAdds(rows, front);
      assert slots == front + [slots[|slots| - 1]];
    }
  }

  /** Same candidates but for status and reviews, and a later or equal place. */
  predicate SameBodies(w: Workflow, v: Workflow) {
    && |w.candidates| <= |v.candidates|
    && (forall i :: 0 <= i < |w.candidates| ==> v.candidates[i].worthWords == w.candidates[i].worthWords)
    && (w.status.ChiefRunning? ==> v.status.ChiefRunning? || |w.candidates| < |v.candidates|)
  }

  lemma RunsStayOk(w: Workflow, v: Workflow, slots: seq<Slot>)
    requires RunsOk(w) && SameBodies(w, v) && Added(w.rows, v.rows, slots)
    requires forall slot :: slot in slots ==> InPlace(v, Row(slot, Pending))
    ensures RunsOk(v)
  {
    forall i | 0 <= i < |v.rows|
      ensures Fits(v, v.rows[i]) && InPlace(v, v.rows[i])
    {
      if i < |w.rows| {
        assert v.rows[i] == w.rows[i];
        assert Fits(w, w.rows[i]) && InPlace(w, w.rows[i]);
      } else {
        assert InPlace(v, Row(v.rows[i].slot, Pending));
      }
    }
  }

  lemma EnsureSlotAdds(rows: Rows, slot: Slot)
    requires EnsureSlot(rows, slot, OUTPUT_ATTEMPTS).Ok?
    ensures Added(rows, EnsureSlot(rows, slot, OUTPUT_ATTEMPTS).value, [slot])
  {}

  lemma ToChiefKeepsRuns(w: Workflow)
    requires RunsOk(w) && ToChief(w).Ok?
    ensures RunsOk(ToChief(w).value)
  {
    EnsureSlotAdds(w.rows, Chief(|w.candidates| + 1));
    RunsStayOk(w, ToChief(w).value, [Chief(|w.candidates| + 1)]);
  }

  lemma ToControllersKeepsRuns(w: Workflow)
    requires RunsOk(w) && ToControllers(w).Ok?
    ensures RunsOk(ToControllers(w).value)
  {
    var slots := ControllerSlots(|w.candidates| + 1);
    EnsureAllAdds(w.rows, slots);
    forall slot | slot in slots
      ensures InPlace(ToControllers(w).value, Row(slot, Pending))
    {
      var k :| 0 <= k < |slots| && slots[k] == slot;
      assert slot == Controller(|w.candidates| + 1, V.REQUIRED[k]);
    }
    RunsStayOk(w, ToControllers(w).value, slots);
  }

  lemma ConcludedKeepsRuns(w: Workflow, outcome: V.Verdict, reviews: seq<V.Review>)
    requires RunsOk(w) && !w.status.ChiefRunning? && |w.candidates| > 0 && Concluded(w, outcome, reviews).Ok?
    ensures RunsOk(Concluded(w, outcome, reviews).value)
  {
    if (outcome == V.Revise || outcome == V.PassWithConditions) && w.revisionCount < w.maxRounds {
      var v := WithLast(w, NeedsRevision, reviews).(revisionCount := w.revisionCount + 1);
      RunsStayOk(w, v, []);
      ToChiefKeepsRuns(v);
    } else {
      RunsStayOk(w, Concluded(w, outcome, reviews).value, []);
    }
  }

  lemma DecideKeepsRuns(w: Workflow)
    requires RunsOk(w) && !w.status.ChiefRunning? && |w.candidates| > 0 && Decide(w).Ok?
    ensures RunsOk(Decide(w).value)
  {
    var last := w.candidates[|w.candidates| - 1];
    var reviews := Reviews(w.rows, last.version, |V.REQUIRED|).value;
    ConcludedKeepsRuns(w, V.GovernedOutcome(last.body, reviews).value, reviews);
  }

  lemma SpecialistsKeepRuns(w: Workflow)
    requires RunsOk(w) && (w.status.SnapshotReady? || w.status.SpecialistsRunning?) && Advance(w).Ok?
    ensures RunsOk(Advance(w).value)
  {
    EnsureAllAdds(w.rows, SPECIALISTS);
    var u := w.(rows := EnsureAll(w.rows, SPECIALISTS, OUTPUT_ATTEMPTS).value);
    RunsStayOk(w, u, SPECIALISTS);
    if w.status.SpecialistsRunning? && AllReady(w.rows, SPECIALISTS) {
      ToChiefKeepsRuns(u);
    } else {
      RunsStayOk(w, Advance(w).value, SPECIALISTS);
    }
  }

  lemma WaitingKeepsRuns(w: Workflow, slots: seq<Slot>)
    requires RunsOk(w) && EnsureAll(w.rows, slots, OUTPUT_ATTEMPTS).Ok?
    requires forall slot :: slot in slots ==> InPlace(w, Row(slot, Pending))
    ensures RunsOk(w.(rows := EnsureAll(w.rows, slots, OUTPUT_ATTEMPTS).value))
  {
    EnsureAllAdds(w.rows, slots);
    RunsStayOk(w, w.(rows := EnsureAll(w.rows, slots, OUTPUT_ATTEMPTS).value), slots);
  }

  lemma AdvanceKeepsRuns(w: Workflow)
    requires Inv(w) && RunsOk(w) && Advance(w).Ok?
    ensures RunsOk(Advance(w).value)
  {
    if w.status.SnapshotReady? || w.status.SpecialistsRunning? {
      SpecialistsKeepRuns(w);
    } else if w.status.ChiefRunning? {
      var slot := Chief(|w.candidates| + 1);
      if Ready(w.rows, slot) {
        ToControllersKeepsRuns(w);
      } else {
        EnsureSlotAdds(w.rows, slot);
        RunsStayOk(w, Advance(w).value, [slot]);
      }
    } else if w.status.ControllersRunning? {
      var slots := ControllerSlots(|w.candidates|);
      if AllReady(w.rows, slots) {
        DecideKeepsRuns(w);
      } else {
        WaitingKeepsRuns(w, slots);
      }
    }
  }

  lemma FinishKeepsRuns(w: Workflow, i: nat, a: Answer)
    requires RunsOk(w)
    ensures RunsOk(RunFinished(w, i, a))
  {
    var v := RunFinished(w, i, a);
    forall k | 0 <= k < |v.rows|
      ensures Fits(v, v.rows[k]) && InPlace(v, v.rows[k])
    {
      assert Fits(w, w.rows[k]) && InPlace(w, w.rows[k]);
    }
  }

  /** In every run: usable outputs fit their slots, and nobody runs ahead. */
  lemma {:induction false} EveryRunHolds(maxRounds: nat, es: seq<Event>)
    ensures RunsOk(Run(Started(maxRounds), es))
  {
    if |es| > 0 {
      var w, e := Run(Started(maxRounds), es[..|es| - 1]), es[|es| - 1];
      EveryRunHolds(maxRounds, es[..|es| - 1]);
      EveryRunKeepsInv(maxRounds, es[..|es| - 1]);
      match e {
        case AdvanceJob => if Advance(w).Ok? { AdvanceKeepsRuns(w); }
        case RunEnds(i, a) => FinishKeepsRuns(w, i, a);
        case OwnerApproves => RunsStayOk(w, Step(w, e), []);
      }
    }
  }

  /** A pending run's answer is used exactly when it came with valid references and fits the slot; nothing else
      changes, and an answer to a run that is over changes nothing. */
  lemma AnswerIff(w: Workflow, i: nat, a: Answer)
    ensures
      var v := Step(w, RunEnds(i, a));
      if i >= |w.rows| || w.rows[i].state != Pending then v == w
      else
        && v == w.(rows := v.rows) && |v.rows| == |w.rows| && v.rows[i].slot == w.rows[i].slot
        && (forall k :: 0 <= k < |w.rows| && k != i ==> v.rows[k] == w.rows[k])
        && (if a.Answered? && a.refsOk && Fits(w, Row(w.rows[i].slot, Usable(a.output)))
            then v.rows[i].state == Usable(a.output) else v.rows[i].state == Unusable)
  {}

  lemma ToChiefAdds(w: Workflow)
    requires ToChief(w).Ok?
    ensures Added(w.rows, ToChief(w).value.rows, [Chief(|w.candidates| + 1)])
  {
    EnsureSlotAdds(w.rows, Chief(|w.candidates| + 1));
  }

  lemma DecideAdds(w: Workflow)
    requires |w.candidates| > 0 && Decide(w).Ok?
    ensures w.rows <= Decide(w).value.rows
    ensures forall i :: |w.rows| <= i < |Decide(w).value.rows| ==> Decide(w).value.rows[i].state.Pending?
  {
    var last := w.candidates[|w.candidates| - 1];
    var reviews := Reviews(w.rows, last.version, 7).value;
    var outcome := V.GovernedOutcome(last.body, reviews).value;
    if !outcome.Block? && !outcome.Pass? && w.revisionCount < w.maxRounds {
      ToChiefAdds(WithLast(w, NeedsRevision, reviews).(revisionCount := w.revisionCount + 1));
    }
  }

  /** An advance keeps every run as it is and starts pending ones. */
  lemma AdvanceAdds(w: Workflow)
    requires Advance(w).Ok?
    ensures w.rows <= Advance(w).value.rows
    ensures forall i :: |w.rows| <= i < |Advance(w).value.rows| ==> Advance(w).value.rows[i].state.Pending?
  {
    if w.status.SnapshotReady? || w.status.SpecialistsRunning? {
      EnsureAllAdds(w.rows, SPECIALISTS);
      if w.status.SpecialistsRunning? && AllReady(w.rows, SPECIALISTS) {
        ToChiefAdds(w.(rows := EnsureAll(w.rows, SPECIALISTS, OUTPUT_ATTEMPTS).value));
      }
    } else if w.status.ChiefRunning? {
      EnsureSlotAdds(w.rows, Chief(|w.candidates| + 1));
      if Ready(w.rows, Chief(|w.candidates| + 1)) { EnsureAllAdds(w.rows, ControllerSlots(|w.candidates| + 1)); }
    } else if w.status.ControllersRunning? {
      var slots := ControllerSlots(w.candidates[|w.candidates| - 1].version);
      EnsureAllAdds(w.rows, slots);
      if AllReady(w.rows, slots) { DecideAdds(w); }
    }
  }

  /** The run ended with this output, whose references were valid. */
  ghost predicate WasAnswered(es: seq<Event>, i: nat, o: Output) {
    exists k :: 0 <= k < |es| && es[k] == RunEnds(i, Answered(o, true))
  }

  lemma NewlyUsable(w: Workflow, e: Event, i: nat)
    requires i < |Step(w, e).rows| && Step(w, e).rows[i].state.Usable?
    ensures
      || (i < |w.rows| && w.rows[i].state == Step(w, e).rows[i].state)
      || e == RunEnds(i, Answered(Step(w, e).rows[i].state.output, true))
  {
    if e.RunEnds? {
      AnswerIff(w, e.i, e.answer);
    } else if e.AdvanceJob? && Advance(w).Ok? {
      AdvanceAdds(w);
    }
  }

  /** In every run of the workflow, whatever any transaction uses was once answered with valid references. */
  lemma {:induction false} EveryUsableWasAnswered(maxRounds: nat, es: seq<Event>, i: nat)
    requires i < |Run(Started(maxRounds), es).rows| && Run(Started(maxRounds), es).rows[i].state.Usable?
    ensures WasAnswered(es, i, Run(Started(maxRounds), es).rows[i].state.output)
  {
    var p, e := es[..|es| - 1], es[|es| - 1];
    var w := Run(Started(maxRounds), p);
    NewlyUsable(w, e, i);
    if i < |w.rows| && w.rows[i].state == Run(Started(maxRounds), es).rows[i].state {
      EveryUsableWasAnswered(maxRounds, p, i);
      var k :| 0 <= k < |p| && p[k] == RunEnds(i, Answered(w.rows[i].state.output, true));
      assert es[k] == p[k];
    } else {
      assert es[|es| - 1] == e;
    }
  }

  // ------------------------------------------------------------ the main results

  lemma SaidByItself(w: Workflow, version: nat, k: nat, o: Output)
    requires RunsOk(w) && k < 7 && Said(w.rows, version, k, o)
    ensures o.controller == V.REQUIRED[k]
  {
    var slot := Controller(version, V.REQUIRED[k]);
    var i :| 0 <= i < |w.rows| && LastUsable(w.rows, slot, o, i);
    assert Fits(w, w.rows[i]);
  }

  /** In every reachable state in which all seven controllers of the newest candidate have had their say, the
      next advance is determined by what they said: a human-worth mapping that the constitutional controller
      missed is an error; else any unwaived BLOCK blocks; else any unwaived REVISE, or condition that says
      something, asks for a revision, or escalates when the rounds are used up; else the candidate becomes the
      decision. */
  lemma OutputsDetermineAdvance(maxRounds: nat, es: seq<Event>, os: seq<Output>)
    requires
      var w := Run(Started(maxRounds), es);
      w.status.ControllersRunning? && AllSaid(w.rows, |w.candidates|, os)
    ensures
      var w := Run(Started(maxRounds), es);
      && |w.candidates| > 0
      && var c := w.candidates[|w.candidates| - 1].body;
         if WorthMissed(c, os) then Advance(w).Err? else Follows(w, Outcome(c, os), Advance(w))
  {
    var w := Run(Started(maxRounds), es);
    EveryRunKeepsInv(maxRounds, es);
    EveryRunHolds(maxRounds, es);
    OutputsDecide(w, os);
  }

  lemma OutputsDecide(w: Workflow, os: seq<Output>)
    requires Inv(w) && RunsOk(w) && w.status.ControllersRunning? && AllSaid(w.rows, |w.candidates|, os)
    ensures
      var c := w.candidates[|w.candidates| - 1].body;
      if WorthMissed(c, os) then Advance(w).Err? else Follows(w, Outcome(c, os), Advance(w))
  {
    var n := |w.candidates|;
    AdvanceIsDecide(w, os);
    GovernedBySaid(w, os);
    NextChiefIsNew(w);
    ConcludedFollows(w, Outcome(w.candidates[n - 1].body, os), Reviews(w.rows, n, 7).value);
  }

  lemma AdvanceIsDecide(w: Workflow, os: seq<Output>)
    requires Numbered(w) && w.status.ControllersRunning? && AllSaid(w.rows, |w.candidates|, os)
    ensures |w.candidates| > 0 && Advance(w) == Decide(w)
  {
    AllSaidIsReady(w.rows, |w.candidates|, os);
  }

  lemma GovernedBySaid(w: Workflow, os: seq<Output>)
    requires Numbered(w) && RunsOk(w) && w.status.ControllersRunning? && AllSaid(w.rows, |w.candidates|, os)
    ensures
      var c, reviews := w.candidates[|w.candidates| - 1].body, Reviews(w.rows, |w.candidates|, 7);
      && reviews.Ok?
      && V.GovernedOutcome(c, reviews.value) ==
           if WorthMissed(c, os) then Err(ConstitutionalViolation) else Ok(Outcome(c, os))
  {
    SaidReviews(w, os);
    OutcomeOfOutputs(w.candidates[|w.candidates| - 1].body, Reviews(w.rows, |w.candidates|, 7).value, os);
  }

  /** The reviews made of what was said, each controller speaking for itself. */
  lemma SaidReviews(w: Workflow, os: seq<Output>)
    requires Numbered(w) && RunsOk(w) && w.status.ControllersRunning? && AllSaid(w.rows, |w.candidates|, os)
    ensures
      var reviews := Reviews(w.rows, |w.candidates|, 7);
      && |w.candidates| > 0 && reviews.Ok? && |reviews.value| == 7 && V.Distinct(reviews.value)
      && forall k :: 0 <= k < 7 ==> Stored(reviews.value[k], os[k], k) && os[k].controller == V.REQUIRED[k]
  {
    var n := |w.candidates|;
    ReviewsOfSaid(w.rows, n, os, 7);
    ReviewsComplete(w.rows, w.candidates[n - 1].(reviews := Reviews(w.rows, n, 7).value));
    forall k | 0 <= k < 7
      ensures os[k].controller == V.REQUIRED[k]
    {
      SaidByItself(w, n, k, os[k]);
    }
  }

  lemma NextChiefIsNew(w: Workflow)
    requires RunsOk(w) && !w.status.ChiefRunning?
    ensures forall i :: 0 <= i < |w.rows| ==> w.rows[i].slot != Chief(|w.candidates| + 1)
  {
    forall i | 0 <= i < |w.rows|
      ensures w.rows[i].slot != Chief(|w.candidates| + 1)
    {
      assert InPlace(w, w.rows[i]);
    }
  }

  /** Controller k let the newest candidate pass. */
  ghost predicate SaidClear(w: Workflow, k: nat)
    requires k < 7 && |w.candidates| > 0
  {
    var c := w.candidates[|w.candidates| - 1].body;
    exists o ::
      && Said(w.rows, |w.candidates|, k, o) && !Objects(c, o, V.Block) && !Objects(c, o, V.Revise)
      && !Conditional(o)
  }

  /** A decision stands on the outputs themselves: in every run with a decision, each of the seven controllers of
      the decided candidate has had its say, without an unwaived BLOCK or REVISE and without a condition that
      says something. */
  lemma DecisionMeansClear(maxRounds: nat, es: seq<Event>, k: nat)
    requires |Run(Started(maxRounds), es).decisions| > 0 && k < 7
    ensures
      var w := Run(Started(maxRounds), es);
      |w.candidates| > 0 && w.decisions == [|w.candidates|] && SaidClear(w, k)
  {
    EveryRunKeepsInv(maxRounds, es);
    EveryRunStores(maxRounds, es);
    EveryRunHolds(maxRounds, es);
    ClearOutput(Run(Started(maxRounds), es), k);
  }

  lemma ClearOutput(w: Workflow, k: nat)
    requires Inv(w) && AllStored(w) && RunsOk(w) && |w.decisions| > 0 && k < 7
    ensures |w.candidates| > 0 && w.decisions == [|w.candidates|] && SaidClear(w, k)
  {
    var last := w.candidates[|w.candidates| - 1];
    assert CandidateStored(w.rows, last);
    assert ReviewStored(w.rows, last.version, last.reviews[k], k);
    var o :| Said(w.rows, last.version, k, o) && Stored(last.reviews[k], o, k);
    SaidByItself(w, last.version, k, o);
    PassReadsPass(last.body, last.reviews, k);
    ReadingOfOutput(last.body, last.reviews[k], o, k);
  }

  lemma PassReadsPass(c: V.Candidate, reviews: seq<V.Review>, k: nat)
    requires V.Distinct(reviews) && V.GovernedOutcome(c, reviews) == Ok(V.Pass) && k < |reviews|
    ensures V.Reading(c, reviews[k]) == V.Pass
  {
    V.GovernedIsWorstReading(c, reviews);
    V.WorstReadingIs(c, reviews);
  }

  /** A BLOCK of any controller but anti-analysis-paralysis keeps its candidate from ever being the decision. */
  lemma BlockNeverDecides(maxRounds: nat, es: seq<Event>, version: nat, k: nat, o: Output)
    requires k < 6 && Said(Run(Started(maxRounds), es).rows, version, k, o) && o.verdict == V.Block
    ensures version !in Run(Started(maxRounds), es).decisions
  {
    var w := Run(Started(maxRounds), es);
    if version in w.decisions {
      DecisionMeansClear(maxRounds, es, k);
      EveryRunHolds(maxRounds, es);
      var c := w.candidates[|w.candidates| - 1].body;
      var p :| Said(w.rows, |w.candidates|, k, p) && !Objects(c, p, V.Block);
      OutputIsOne(w.rows, Controller(version, V.REQUIRED[k]), o, p);
      SaidByItself(w, version, k, o);
    }
  }
}
