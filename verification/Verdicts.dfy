/**
 How controller reviews combine (application/decision_workflow.py, decision_governance.py,
 production/governance.py).

 The text detectors (human worth, manipulation, missing information) are facts carried by the
 candidate and the review.
 */
module Verdicts {
  import opened Basics

  datatype Verdict = Pass | PassWithConditions | Revise | Block

  function Severity(v: Verdict): nat {
    match v
    case Pass => 0
    case PassWithConditions => 1
    case Revise => 2
    case Block => 3
  }

  function Worse(a: Verdict, b: Verdict): Verdict { if Severity(a) >= Severity(b) then a else b }

  /** The seven decision controllers; the two the governance rules name come first. */
  datatype Controller =
    | Constitutional | AntiAnalysisParalysis | Evidence | StrategyRedTeam | DecisionQuality | Economics
    | Manipulation

  const REQUIRED: seq<Controller> :=
    [Evidence, StrategyRedTeam, Constitutional, DecisionQuality, Economics, Manipulation, AntiAnalysisParalysis]

  datatype Review = Review(
    id: nat,
    controller: Controller,
    verdict: Verdict,
    conditions: seq<string>,
    requiredChanges: seq<string>,
    missingInfoOnly: bool)

  /** What the rules read of a candidate's payload. */
  datatype Candidate = Candidate(worthMapping: bool, lowRisk: bool, easilyReversible: bool, criticalUnknown: bool)

  /** The characters str.strip removes. */
  predicate IsSpace(c: char) {
    var n := c as int;
    9 <= n <= 13 || 28 <= n <= 32 || n == 133 || n == 160 || n == 5760 || 8192 <= n <= 8202 ||
    n == 8232 || n == 8233 || n == 8239 || n == 8287 || n == 12288
  }

  predicate Blank(s: string) { forall c :: c in s ==> IsSpace(c) }

  predicate Mandatory(conditions: seq<string>, requiredChanges: seq<string>) {
    exists v :: v in conditions + requiredChanges && !Blank(v)
  }

  predicate HasMandatoryConditions(r: Review) { Mandatory(r.conditions, r.requiredChanges) }

  predicate LowRiskReversible(c: Candidate) { c.lowRisk && c.easilyReversible && !c.criticalUnknown }

  /** The dictionary keyed by controller type keeps the last review of a type. */
  function LastOf(reviews: seq<Review>, t: Controller): Option<Review> {
    if |reviews| == 0 then None
    else if reviews[|reviews| - 1].controller == t then Some(reviews[|reviews| - 1])
    else LastOf(reviews[..|reviews| - 1], t)
  }

  predicate Waivable(c: Candidate, r: Review) {
    && r.controller.AntiAnalysisParalysis? && LowRiskReversible(c)
    && (r.verdict.Block? || r.verdict.Revise?) && r.missingInfoOnly
  }

  predicate Ignored(c: Candidate, reviews: seq<Review>, r: Review) {
    var anti := LastOf(reviews, AntiAnalysisParalysis);
    anti.Some? && Waivable(c, anti.value) && r.id == anti.value.id
  }

  predicate EffectiveHas(c: Candidate, reviews: seq<Review>, v: Verdict) {
    exists i :: 0 <= i < |reviews| && reviews[i].verdict == v && !Ignored(c, reviews, reviews[i])
  }

  predicate UnmetCondition(c: Candidate, reviews: seq<Review>) {
    exists i :: 0 <= i < |reviews| && reviews[i].verdict.PassWithConditions?
                && !Ignored(c, reviews, reviews[i]) && HasMandatoryConditions(reviews[i])
  }

  predicate WorthUnblocked(c: Candidate, reviews: seq<Review>) {
    var con := LastOf(reviews, Constitutional);
    c.worthMapping && (con.None? || !con.value.verdict.Block?)
  }

  function GovernedOutcome(c: Candidate, reviews: seq<Review>): Result<Verdict> {
    if WorthUnblocked(c, reviews) then Err(ConstitutionalViolation)
    else if EffectiveHas(c, reviews, Block) then Ok(Block)
    else if EffectiveHas(c, reviews, Revise) then Ok(Revise)
    else if UnmetCondition(c, reviews) then Ok(PassWithConditions)
    else Ok(Pass)
  }

  /** The ungoverned rule of the base workflow. */
  function BaseOutcome(reviews: seq<Review>): Verdict {
    if exists i :: 0 <= i < |reviews| && reviews[i].verdict.Block? then Block
    else if exists i :: 0 <= i < |reviews| && reviews[i].verdict.Revise? then Revise
    else if exists i :: 0 <= i < |reviews| && reviews[i].verdict.PassWithConditions? then PassWithConditions
    else Pass
  }

  // ------------------------------------------------------------ reference definition

  /** Every character is one of these Unicode code points. */
  const WHITE: set<int> :=
    {9, 10, 11, 12, 13, 28, 29, 30, 31, 32, 133, 160, 5760, 8192, 8193, 8194, 8195, 8196, 8197, 8198, 8199, 8200, 8201,
     8202, 8232, 8233, 8239, 8287, 12288}

  predicate SaysNothing(s: string) { forall i :: 0 <= i < |s| ==> s[i] as int in WHITE }

  /** Only a missing-information objection of the anti-analysis-paralysis controller to a low-risk, easily
      reversible candidate without critical unknowns is waived. */
  predicate Waived(c: Candidate, controller: Controller, verdict: Verdict, missingInfoOnly: bool) {
    && controller == AntiAnalysisParalysis && verdict in {Block, Revise} && missingInfoOnly
    && c.lowRisk && c.easilyReversible && !c.criticalUnknown
  }

  /** A review read on its own: waived and condition-free reviews count as PASS. */
  function Reading(c: Candidate, r: Review): Verdict {
    if Waived(c, r.controller, r.verdict, r.missingInfoOnly) then Pass
    else if r.verdict == PassWithConditions && (forall v :: v in r.conditions + r.requiredChanges ==> SaysNothing(v))
    then Pass
    else r.verdict
  }

  lemma BlankIsWhite(s: string)
    ensures Blank(s) <==> SaysNothing(s)
  {
    if Blank(s) {
      forall i | 0 <= i < |s|
        ensures s[i] as int in WHITE
      {
        assert s[i] in s;
      }
    }
  }

  /** The rules' tests agree with the reading. */
  lemma ReadingIs(c: Candidate, r: Review)
    ensures Waivable(c, r) <==> Waived(c, r.controller, r.verdict, r.missingInfoOnly)
    ensures HasMandatoryConditions(r) <==> exists v :: v in r.conditions + r.requiredChanges && !SaysNothing(v)
    ensures Reading(c, r) ==
      if Waivable(c, r) then Pass
      else if r.verdict.PassWithConditions? && !HasMandatoryConditions(r) then Pass
      else r.verdict
  {
    forall v | v in r.conditions + r.requiredChanges
      ensures Blank(v) <==> SaysNothing(v)
    {
      BlankIsWhite(v);
    }
  }

  function WorstReading(c: Candidate, reviews: seq<Review>): Verdict {
    if |reviews| == 0 then Pass
    else Worse(WorstReading(c, reviews[..|reviews| - 1]), Reading(c, reviews[|reviews| - 1]))
  }

  /** One review per controller type and one id per review, as the workflow materializes them. */
  predicate Distinct(reviews: seq<Review>) {
    forall i, k :: 0 <= i < k < |reviews| ==>
      reviews[i].controller != reviews[k].controller && reviews[i].id != reviews[k].id
  }

  lemma {:induction false} LastOfIs(reviews: seq<Review>, t: Controller)
    ensures LastOf(reviews, t).Some? ==> LastOf(reviews, t).value in reviews && LastOf(reviews, t).value.controller == t
    ensures LastOf(reviews, t).None? ==> forall i :: 0 <= i < |reviews| ==> reviews[i].controller != t
  {
    if |reviews| > 0 {
      LastOfIs(reviews[..|reviews| - 1], t);
    }
  }

  lemma IgnoredIsWaived(c: Candidate, reviews: seq<Review>, i: nat)
    requires Distinct(reviews) && i < |reviews|
    ensures Ignored(c, reviews, reviews[i]) <==> Waivable(c, reviews[i])
  {
    LastOfIs(reviews, AntiAnalysisParalysis);
    var anti := LastOf(reviews, AntiAnalysisParalysis);
    if anti.Some? {
      var k :| 0 <= k < |reviews| && reviews[k] == anti.value;
      assert reviews[i].id == anti.value.id || reviews[i].controller.AntiAnalysisParalysis? ==> i == k;
    }
  }

  lemma {:induction false} WorstReadingIs(c: Candidate, reviews: seq<Review>)
    ensures forall i :: 0 <= i < |reviews| ==> Severity(Reading(c, reviews[i])) <= Severity(WorstReading(c, reviews))
    ensures
      || WorstReading(c, reviews) == Pass
      || exists i :: 0 <= i < |reviews| && Reading(c, reviews[i]) == WorstReading(c, reviews)
  {
    if |reviews| > 0 {
      var rest := reviews[..|reviews| - 1];
      WorstReadingIs(c, rest);
      if WorstReading(c, reviews) == WorstReading(c, rest) && WorstReading(c, rest) != Pass {
        var i :| 0 <= i < |rest| && Reading(c, rest[i]) == WorstReading(c, rest);
        assert reviews[i] == rest[i];
      }
    }
  }

  /** The governed outcome is the worst reading over all reviews, whenever it is not an error,
      and it is an error exactly for an unblocked human-worth mapping. */
  lemma GovernedIsWorstReading(c: Candidate, reviews: seq<Review>)
    requires Distinct(reviews)
    ensures GovernedOutcome(c, reviews) ==
      if c.worthMapping
         && !(exists i :: 0 <= i < |reviews| && reviews[i].controller.Constitutional? && reviews[i].verdict.Block?)
      then Err(ConstitutionalViolation) else Ok(WorstReading(c, reviews))
  {
    LastOfIs(reviews, Constitutional);
    WorstReadingIs(c, reviews);
    var worst := WorstReading(c, reviews);
    forall i | 0 <= i < |reviews|
      ensures Ignored(c, reviews, reviews[i]) <==> Waivable(c, reviews[i])
    {
      IgnoredIsWaived(c, reviews, i);
    }
    forall i | 0 <= i < |reviews|
      ensures Reading(c, reviews[i]) ==
        if Waivable(c, reviews[i]) then Pass
        else if reviews[i].verdict.PassWithConditions? && !HasMandatoryConditions(reviews[i]) then Pass
        else reviews[i].verdict
    {
      ReadingIs(c, reviews[i]);
    }
    if worst != Pass {
      var i :| 0 <= i < |reviews| && Reading(c, reviews[i]) == worst;
      assert !Ignored(c, reviews, reviews[i]) && reviews[i].verdict == worst;
    }
  }

  /** Order does not matter: only which reviews there are. */
  lemma OrderDoesNotMatter(c: Candidate, a: seq<Review>, b: seq<Review>)
    requires Distinct(a) && Distinct(b) && multiset(a) == multiset(b)
    ensures GovernedOutcome(c, a) == GovernedOutcome(c, b)
  {
    assert forall r :: r in a <==> r in multiset(a);
    assert forall r :: r in b <==> r in multiset(b);
    GovernedIsWorstReading(c, a);
    GovernedIsWorstReading(c, b);
    WorstReadingIs(c, a);
    WorstReadingIs(c, b);
    BoundedBy(c, a, b);
    BoundedBy(c, b, a);
    SameExtremes(a, b);
  }

  lemma BoundedBy(c: Candidate, a: seq<Review>, b: seq<Review>)
    requires forall r :: r in a ==> r in b
    ensures Severity(WorstReading(c, a)) <= Severity(WorstReading(c, b))
  {
    WorstReadingIs(c, a);
    WorstReadingIs(c, b);
    if WorstReading(c, a) != Pass {
      var i :| 0 <= i < |a| && Reading(c, a[i]) == WorstReading(c, a);
      assert a[i] in b;
    }
  }

  lemma SameExtremes(a: seq<Review>, b: seq<Review>)
    requires forall r :: r in a <==> r in b
    ensures (exists i :: 0 <= i < |a| && a[i].controller.Constitutional? && a[i].verdict.Block?)
       <==> (exists i :: 0 <= i < |b| && b[i].controller.Constitutional? && b[i].verdict.Block?)
  {
    if i :| 0 <= i < |a| && a[i].controller.Constitutional? && a[i].verdict.Block? {
      assert a[i] in b;
    }
    if i :| 0 <= i < |b| && b[i].controller.Constitutional? && b[i].verdict.Block? {
      assert b[i] in a;
    }
  }

  /** The base rule takes the worst verdict as it stands. */
  lemma BaseIsWorstVerdict(reviews: seq<Review>)
    ensures forall i :: 0 <= i < |reviews| ==> Severity(reviews[i].verdict) <= Severity(BaseOutcome(reviews))
    ensures BaseOutcome(reviews) == Pass || exists i :: 0 <= i < |reviews| && reviews[i].verdict == BaseOutcome(reviews)
  {}

  /** Governance only ever softens the base rule, and it never softens a BLOCK of any
      controller other than anti_analysis_paralysis. */
  lemma GovernanceOnlySoftens(c: Candidate, reviews: seq<Review>)
    requires Distinct(reviews) && GovernedOutcome(c, reviews).Ok?
    ensures Severity(GovernedOutcome(c, reviews).value) <= Severity(BaseOutcome(reviews))
    ensures forall i ::
      (0 <= i < |reviews| && reviews[i].verdict.Block? && !reviews[i].controller.AntiAnalysisParalysis?) ==>
      GovernedOutcome(c, reviews) == Ok(Block)
    ensures GovernedOutcome(c, reviews) == Ok(Block) <==>
      exists i :: 0 <= i < |reviews| && reviews[i].verdict == Block
                  && !Waived(c, reviews[i].controller, Block, reviews[i].missingInfoOnly)
  {
    GovernedIsWorstReading(c, reviews);
    WorstReadingIs(c, reviews);
    if WorstReading(c, reviews) != Pass {
      var i :| 0 <= i < |reviews| && Reading(c, reviews[i]) == WorstReading(c, reviews);
      assert reviews[i].verdict == WorstReading(c, reviews);
    }
    forall i | 0 <= i < |reviews| && reviews[i].verdict == Block
               && !Waived(c, reviews[i].controller, Block, reviews[i].missingInfoOnly)
      ensures GovernedOutcome(c, reviews) == Ok(Block)
    {
      assert Reading(c, reviews[i]) == Block;
    }
  }
}
