/**
 The production workflow does get there: every clean draft with seven passing reviews ends as the
 final version of a READY workflow, on the first version and without a revision.
 */
module ProductionPath {
  import opened Basics
  import opened RunTable
  import opened ProductionWorkflow
  import V = Verdicts

  /** Nothing in the draft itself stands against it. */
  predicate Clean(d: Draft, evidence: set<nat>) {
    && !d.worthMapping && !d.manipulative && !UnsupportedClaims(d, evidence)
    && (d.origin.Generated? || d.permissionScope)
  }

  function PassOutput(i: nat): Output
    requires i < 7
  {
    ReviewOutput(REQUIRED[i], V.Pass, [])
  }

  /** Strategy, writer, then the seven controller runs of which the first n have passed. */
  function RowsAt(d: Draft, n: nat): (rows: Rows)
    ensures |rows| == 9 && rows[0].slot == Strategy && rows[1].slot == Writer(1)
    ensures forall i :: 0 <= i < 7 ==>
      rows[i + 2] == Row(Controller(1, REQUIRED[i]), if i < n then Usable(PassOutput(i)) else Pending)
  {
    [Row(Strategy, Usable(StrategyOutput)), Row(Writer(1), Usable(DraftOutput(d)))] +
    seq(7, i requires 0 <= i < 7 => Row(Controller(1, REQUIRED[i]), if i < n then Usable(PassOutput(i)) else Pending))
  }

  function FirstVersion(d: Draft): AssetVersion {
    AssetVersion(1, d, 1, if d.origin.Generated? then Some(1) else None, [])
  }

  function InReview(max: nat, evidence: set<nat>, d: Draft, n: nat): Workflow {
    Workflow(AssetControllersRunning, 0, max, [FirstVersion(d)], Some(1), RowsAt(d, n), evidence)
  }

  function Writing(max: nat, evidence: set<nat>, state: RunState<Output>): Workflow {
    Workflow(ProductionRunning, 0, max, [], None, [Row(Strategy, Usable(StrategyOutput)), Row(Writer(1), state)],
      evidence)
  }

  /** The events up to the nth review. */
  function Path(d: Draft, n: nat): seq<Event>
    requires n <= 7
  {
    if n == 0 then
      [AdvanceJob(true), RunEnds(0, Some(StrategyOutput)), AdvanceJob(true), RunEnds(1, Some(DraftOutput(d))),
        AdvanceJob(true)]
    else Path(d, n - 1) + [RunEnds(n + 1, Some(PassOutput(n - 1)))]
  }

  lemma RunAppend(w: Workflow, es: seq<Event>, e: Event)
    ensures Run(w, es + [e]) == Step(Run(w, es), e)
  {
    assert (es + [e])[..|es|] == es;
  }

  lemma StrategyPart(max: nat, evidence: set<nat>)
    ensures
      var w1 := Step(Started(max, evidence), AdvanceJob(true));
      var w2 := Step(w1, RunEnds(0, Some(StrategyOutput)));
      Step(w2, AdvanceJob(true)) == Writing(max, evidence, Pending)
  {
    var w1 := Step(Started(max, evidence), AdvanceJob(true));
    assert w1.rows == [Row(Strategy, Pending)] && w1.status.ContentStrategyRunning?;
    var w2 := Step(w1, RunEnds(0, Some(StrategyOutput)));
    assert w2.rows == [Row(Strategy, Usable(StrategyOutput))];
    NoRowsNoCount(w2.rows, Writer(1));
  }

  lemma RequiredDiffer(i: nat, k: nat)
    requires i < k < 7
    ensures REQUIRED[i] != REQUIRED[k]
  {}

  lemma SlotIsNew(d: Draft, n: nat)
    requires 1 <= n <= 7
    ensures Count(RowsAt(d, 0)[..n + 1], Controller(1, REQUIRED[n - 1])) == 0
  {
    var before, slot := RowsAt(d, 0)[..n + 1], Controller(1, REQUIRED[n - 1]);
    forall i | 0 <= i < |before|
      ensures before[i].slot != slot
    {
      if i >= 2 {
        assert RowsAt(d, 0)[i - 2 + 2].slot == Controller(1, REQUIRED[i - 2]);
        RequiredDiffer(i - 2, n - 1);
      }
    }
    NoRowsNoCount(before, slot);
  }

  lemma {:induction false} ControllersStart(d: Draft, n: nat)
    requires n <= 7
    ensures StartAll(RowsAt(d, 0)[..2], 1, n) == RowsAt(d, 0)[..n + 2]
  {
    if n > 0 {
      ControllersStart(d, n - 1);
      SlotIsNew(d, n);
      assert RowsAt(d, 0)[n - 1 + 2] == Row(Controller(1, REQUIRED[n - 1]), Pending);
      assert RowsAt(d, 0)[..n + 2] == RowsAt(d, 0)[..n + 1] + [RowsAt(d, 0)[n + 1]];
    }
  }

  lemma WritingPart(max: nat, evidence: set<nat>, d: Draft)
    ensures Step(Step(Writing(max, evidence, Pending), RunEnds(1, Some(DraftOutput(d)))), AdvanceJob(true))
            == InReview(max, evidence, d, 0)
  {
    var w := Step(Writing(max, evidence, Pending), RunEnds(1, Some(DraftOutput(d))));
    assert w == Writing(max, evidence, Usable(DraftOutput(d)));
    assert RowsAt(d, 0)[..2] == w.rows;
    ControllersStart(d, 7);
    assert RowsAt(d, 0)[..9] == RowsAt(d, 0);
    assert NewVersion(w, 1, d) == FirstVersion(d);
  }

  lemma FirstPart(max: nat, evidence: set<nat>, d: Draft)
    ensures Run(Started(max, evidence), Path(d, 0)) == InReview(max, evidence, d, 0)
  {
    var w, es := Started(max, evidence), Path(d, 0);
    StrategyPart(max, evidence);
    WritingPart(max, evidence, d);
    assert es == [es[0]] + [es[1]] + [es[2]] + [es[3]] + [es[4]];
    assert Run(w, []) == w;
    assert [] + [es[0]] == [es[0]];
    RunAppend(w, [], es[0]);
    RunAppend(w, [es[0]], es[1]);
    RunAppend(w, [es[0]] + [es[1]], es[2]);
    RunAppend(w, [es[0]] + [es[1]] + [es[2]], es[3]);
    RunAppend(w, [es[0]] + [es[1]] + [es[2]] + [es[3]], es[4]);
  }

  lemma {:induction false} ReviewPart(max: nat, evidence: set<nat>, d: Draft, n: nat)
    requires n <= 7
    ensures Run(Started(max, evidence), Path(d, n)) == InReview(max, evidence, d, n)
  {
    if n == 0 {
      FirstPart(max, evidence, d);
    } else {
      ReviewPart(max, evidence, d, n - 1);
      RunAppend(Started(max, evidence), Path(d, n - 1), RunEnds(n + 1, Some(PassOutput(n - 1))));
      var rows := RowsAt(d, n - 1);
      assert rows[n - 1 + 2] == Row(Controller(1, REQUIRED[n - 1]), Pending);
      assert Finish(rows, n + 1, Usable(PassOutput(n - 1))) == RowsAt(d, n);
    }
  }

  lemma {:induction false} NewestIs(rows: Rows, i: nat)
    requires i < |rows| && rows[i].state.Usable? && forall k :: i < k < |rows| ==> rows[k].slot != rows[i].slot
    ensures Newest(rows, rows[i].slot) == Some(rows[i].state.output)
  {
    if i < |rows| - 1 {
      assert rows[..|rows| - 1][i] == rows[i];
      NewestIs(rows[..|rows| - 1], i);
    }
  }

  lemma {:induction false} AllPass(d: Draft, n: nat)
    requires n <= 7
    ensures
      var r := Reviews(RowsAt(d, 7), 1, n);
      r.Ok? && |r.value| == n && forall i :: 0 <= i < n ==> r.value[i] == AssetReview(REQUIRED[i], V.Pass, [], [])
  {
    if n > 0 {
      AllPass(d, n - 1);
      PassIsNewest(d, n - 1);
    }
  }

  lemma PassIsNewest(d: Draft, i: nat)
    requires i < 7
    ensures Newest(RowsAt(d, 7), Controller(1, REQUIRED[i])) == Some(PassOutput(i))
  {
    var rows := RowsAt(d, 7);
    assert rows[i + 2] == Row(Controller(1, REQUIRED[i]), Usable(PassOutput(i)));
    forall k | i + 2 < k < 9
      ensures rows[k].slot != rows[i + 2].slot
    {
      assert rows[k - 2 + 2].slot == Controller(1, REQUIRED[k - 2]);
      RequiredDiffer(i, k - 2);
    }
    NewestIs(rows, i + 2);
  }

  lemma PassesReview(d: Draft, evidence: set<nat>, reviews: seq<AssetReview>)
    requires Clean(d, evidence) && |reviews| == 7
    requires forall i :: 0 <= i < 7 ==> reviews[i] == AssetReview(REQUIRED[i], V.Pass, [], [])
    ensures AssetOutcome(FirstVersion(d), evidence, reviews) == Ok(V.Pass)
  {
    forall c | c in REQUIRED
      ensures exists i :: 0 <= i < |reviews| && reviews[i].controller == c
    {
      var i :| 0 <= i < |REQUIRED| && REQUIRED[i] == c;
      assert reviews[i].controller == c;
    }
  }

  /** Thirteen events take a clean draft to READY, as the final version. */
  lemma CleanDraftGetsReady(max: nat, evidence: set<nat>, d: Draft)
    requires Clean(d, evidence)
    ensures
      var w := Run(Started(max, evidence), Path(d, 7) + [AdvanceJob(true)]);
      && w.status.ReadyForActionProposal? && w.finalVersion == Some(1) && w.revisionCount == 0
      && |w.versions| == 1 && w.versions[0].draft == d && |w.rows| == 9
  {
    ReviewPart(max, evidence, d, 7);
    RunAppend(Started(max, evidence), Path(d, 7), AdvanceJob(true));
    AllPass(d, 7);
    PassesReview(d, evidence, Reviews(RowsAt(d, 7), 1, 7).value);
  }
}
