/**
 The decision workflow does get there: a candidate without a human-worth mapping that all seven controllers
 pass becomes the decision, and the owner's approval releases it for production.
 */
module DecisionPath {
  import opened Basics
  import opened RunTable
  import opened DecisionWorkflow
  import DO = DecisionOutputs
  import V = Verdicts

  function Proposal(c: V.Candidate): Output { ChiefOutput(c, false, false) }

  function PassOf(i: nat): Output
    requires i < 7
  {
    ControllerOutput(V.REQUIRED[i], V.Pass, [], false, true)
  }

  function SpecialistRows(n: nat): (rows: Rows)
    ensures |rows| == 3
    ensures forall i :: 0 <= i < 3 ==>
      rows[i] == Row(Specialist(i), if i < n then Usable(SpecialistOutput) else Pending)
  {
    seq(3, i requires 0 <= i < 3 => Row(Specialist(i), if i < n then Usable(SpecialistOutput) else Pending))
  }

  function ControllerRows(n: nat): (rows: Rows)
    ensures |rows| == 7
    ensures forall i :: 0 <= i < 7 ==>
      rows[i] == Row(Controller(1, V.REQUIRED[i]), if i < n then Usable(PassOf(i)) else Pending)
  {
    seq(7, i requires 0 <= i < 7 => Row(Controller(1, V.REQUIRED[i]), if i < n then Usable(PassOf(i)) else Pending))
  }

  function Asked(c: V.Candidate): Rows { SpecialistRows(3) + [Row(Chief(1), Usable(Proposal(c)))] }

  function InReview(max: nat, c: V.Candidate, n: nat): Workflow {
    Workflow(ControllersRunning, 0, max, [Candidate(1, 0, c, false, UnderReview, [])],
             Asked(c) + ControllerRows(n), [], 3)
  }

  lemma RunAppend(w: Workflow, es: seq<Event>, e: Event)
    ensures Run(w, es + [e]) == Step(Run(w, es), e)
  {
    assert (es + [e])[..|es|] == es;
  }

  /** The first n specialists have answered. */
  function Consulting(max: nat, n: nat): Workflow { Workflow(SpecialistsRunning, 0, max, [], SpecialistRows(n), [], 1) }

  lemma Consulted(max: nat)
    ensures Step(Started(max), AdvanceJob) == Consulting(max, 0)
  {
    FreshSlotsStart<Slot, Output>([], SPECIALISTS, OUTPUT_ATTEMPTS);
    var started: Rows := PendingRows(SPECIALISTS);
    assert [] + started == SpecialistRows(0);
  }

  lemma OneMoreSpecialist(max: nat, n: nat)
    requires n < 3
    ensures Step(Consulting(max, n), RunEnds(n, Answered(SpecialistOutput, true))) == Consulting(max, n + 1)
  {
    assert Finish(SpecialistRows(n), n, Usable(SpecialistOutput)) == SpecialistRows(n + 1);
  }

  lemma {:induction false} ReadyRests(rows: Rows, slots: seq<Slot>)
    requires AllReady(rows, slots)
    ensures EnsureAll(rows, slots, OUTPUT_ATTEMPTS) == Ok(rows)
  {
    if |slots| > 0 {
      var front := slots[..|slots| - 1];
      assert forall i :: 0 <= i < |front| ==> front[i] == slots[i];
      ReadyRests(rows, front);
    }
  }

  lemma SingleIsReady(rows: Rows, i: nat)
    requires i < |rows| && rows[i].state.Usable?
    requires forall k :: 0 <= k < |rows| && k != i ==> rows[k].slot != rows[i].slot
    ensures Ready(rows, rows[i].slot) && Newest(rows, rows[i].slot) == Some(rows[i].state.output)
  {
    assert LastUsable(rows, rows[i].slot, rows[i].state.output, i);
    NewestIff(rows, rows[i].slot, rows[i].state.output);
  }

  function Writing(max: nat, state: RunState<Output>): Workflow {
    Workflow(ChiefRunning, 0, max, [], SpecialistRows(3) + [Row(Chief(1), state)], [], 2)
  }

  lemma ChiefIsAsked(max: nat)
    ensures Step(Consulting(max, 3), AdvanceJob) == Writing(max, Pending)
  {
    var rows := SpecialistRows(3);
    forall i | 0 <= i < |SPECIALISTS|
      ensures Ready(rows, SPECIALISTS[i])
    {
      SingleIsReady(rows, i);
    }
    ReadyRests(rows, SPECIALISTS);
    NoRowsNoCount(rows, Chief(1));
    NewestIsOutput(rows, Chief(1));
  }

  lemma ChiefAnswers(max: nat, c: V.Candidate)
    ensures Step(Writing(max, Pending), RunEnds(3, Answered(Proposal(c), true))) == Writing(max, Usable(Proposal(c)))
  {
    var rows := Writing(max, Pending).rows;
    assert Finish(rows, 3, Usable(Proposal(c))) == Asked(c);
  }

  lemma ReviewStarts(max: nat, c: V.Candidate)
    ensures Step(Writing(max, Usable(Proposal(c))), AdvanceJob) == InReview(max, c, 0)
  {
    var w := Writing(max, Usable(Proposal(c)));
    SingleIsReady(w.rows, 3);
    var slots := ControllerSlots(1);
    forall i, k | 0 <= i < k < |slots|
      ensures slots[i] != slots[k]
    {
      RequiredDiffer(i, k);
    }
    FreshSlotsStart(w.rows, slots, OUTPUT_ATTEMPTS);
    var started: Rows := PendingRows(slots);
    assert started == ControllerRows(0);
  }

  lemma RequiredDiffer(i: nat, k: nat)
    requires i < k < 7
    ensures V.REQUIRED[i] != V.REQUIRED[k]
  {}

  lemma OneMorePass(max: nat, c: V.Candidate, n: nat)
    requires n < 7
    ensures Step(InReview(max, c, n), RunEnds(n + 4, Answered(PassOf(n), true))) == InReview(max, c, n + 1)
  {
    var w := InReview(max, c, n);
    assert w.rows[n + 4] == Row(Controller(1, V.REQUIRED[n]), Pending);
    assert Finish(w.rows, n + 4, Usable(PassOf(n))) == Asked(c) + ControllerRows(n + 1);
  }

  function Opening(c: V.Candidate): seq<Event> {
    [AdvanceJob] + [RunEnds(0, Answered(SpecialistOutput, true))] + [RunEnds(1, Answered(SpecialistOutput, true))]
    + [RunEnds(2, Answered(SpecialistOutput, true))] + [AdvanceJob]
    + [RunEnds(3, Answered(Proposal(c), true))] + [AdvanceJob]
  }

  /** The events up to the nth pass. */
  function Path(c: V.Candidate, n: nat): seq<Event>
    requires n <= 7
  {
    if n == 0 then Opening(c) else Path(c, n - 1) + [RunEnds(n + 3, Answered(PassOf(n - 1), true))]
  }

  lemma OpeningRun(max: nat, c: V.Candidate)
    ensures Run(Started(max), Opening(c)) == InReview(max, c, 0)
  {
    var w, s, e := Started(max), RunEnds(0, Answered(SpecialistOutput, true)), [AdvanceJob];
    assert Run(w, []) == w && [] + [AdvanceJob] == e;
    RunAppend(w, [], AdvanceJob);
    Consulted(max);
    OneMoreSpecialist(max, 0);
    RunAppend(w, e, s);
    OneMoreSpecialist(max, 1);
    RunAppend(w, e + [s], s.(i := 1));
    OneMoreSpecialist(max, 2);
    RunAppend(w, e + [s] + [s.(i := 1)], s.(i := 2));
    ChiefIsAsked(max);
    var f := e + [s] + [s.(i := 1)] + [s.(i := 2)];
    RunAppend(w, f, AdvanceJob);
    ChiefAnswers(max, c);
    RunAppend(w, f + [AdvanceJob], RunEnds(3, Answered(Proposal(c), true)));
    ReviewStarts(max, c);
    RunAppend(w, f + [AdvanceJob] + [RunEnds(3, Answered(Proposal(c), true))], AdvanceJob);
  }

  lemma {:induction false} ReviewRun(max: nat, c: V.Candidate, n: nat)
    requires n <= 7
    ensures Run(Started(max), Path(c, n)) == InReview(max, c, n)
  {
    if n == 0 {
      OpeningRun(max, c);
    } else {
      ReviewRun(max, c, n - 1);
      OneMorePass(max, c, n - 1);
      RunAppend(Started(max), Path(c, n - 1), RunEnds(n + 3, Answered(PassOf(n - 1), true)));
    }
  }

  function AllPasses(): (os: seq<Output>)
    ensures |os| == 7 && forall k :: 0 <= k < 7 ==> os[k] == PassOf(k)
  {
    seq(7, k requires 0 <= k < 7 => PassOf(k))
  }

  lemma AllHavePassed(max: nat, c: V.Candidate)
    ensures DO.AllSaid(InReview(max, c, 7).rows, 1, AllPasses())
  {
    var rows := InReview(max, c, 7).rows;
    forall k | 0 <= k < 7
      ensures DO.Said(rows, 1, k, PassOf(k))
    {
      assert rows[k + 4] == Row(Controller(1, V.REQUIRED[k]), Usable(PassOf(k)));
      forall i | 0 <= i < |rows| && i != k + 4
        ensures rows[i].slot != Controller(1, V.REQUIRED[k])
      {
        if i >= 4 {
          assert rows[i].slot == Controller(1, V.REQUIRED[i - 4]);
          if i - 4 < k { RequiredDiffer(i - 4, k); } else { RequiredDiffer(k, i - 4); }
        }
      }
      assert LastUsable(rows, Controller(1, V.REQUIRED[k]), PassOf(k), k + 4);
    }
  }

  /** Fifteen events take such a candidate to the decision, and the owner's approval one further. */
  lemma PassedCandidateIsDecided(max: nat, c: V.Candidate)
    requires !c.worthMapping
    ensures
      var w := Run(Started(max), Path(c, 7) + [AdvanceJob]);
      && w.status == AwaitingDecisionApproval && w.decisions == [1] && |w.candidates| == 1 && w.candidates[0].body == c
      && var a := Step(w, OwnerApproves);
         a.status == ApprovedForProduction && a.decisions == [1] && a.candidates == w.candidates
  {
    ReviewRun(max, c, 7);
    AllHavePassed(max, c);
    DO.OutputsDetermineAdvance(max, Path(c, 7), AllPasses());
    NobodyObjects(c);
    RunAppend(Started(max), Path(c, 7), AdvanceJob);
    DecidedIs(InReview(max, c, 7));
  }

  lemma NobodyObjects(c: V.Candidate)
    requires !c.worthMapping
    ensures DO.Outcome(c, AllPasses()) == V.Pass && !DO.WorthMissed(c, AllPasses())
  {}

  lemma DecidedIs(w: Workflow)
    requires |w.candidates| == 1 && w.decisions == [] && DO.Follows(w, V.Pass, Advance(w))
    ensures
      var v := Step(w, AdvanceJob);
      && v.status == AwaitingDecisionApproval && v.decisions == [1] && |v.candidates| == 1
      && v.candidates[0].body == w.candidates[0].body
  {}

  /** The owner's approval: only of an awaited decision, once. */
  lemma ApprovalIff(w: Workflow)
    ensures
      var v := Step(w, OwnerApproves);
      && (v.status == ApprovedForProduction <==>
            w.status == ApprovedForProduction || (w.status == AwaitingDecisionApproval && |w.decisions| > 0))
      && (v.status != ApprovedForProduction ==> v == w && Approve(w) == Err(NotEligible))
      && (v.status == ApprovedForProduction ==> Approve(w) == Ok(v)) && (w.status == ApprovedForProduction ==> v == w)
      && v.decisions == w.decisions && v.candidates == w.candidates && v.rows == w.rows
  {}
}
