/**
 The execution pipeline and the observation feeds together: a publication's commit also writes its
 external reference and link, and a metric is what its account's feed calculates.  The result: an
 experiment result on an available metric classifies the true number of reactions by the checkpoint
 that was registered before the action was proposed.
 */
module EndToEnd {
  import opened Basics
  import opened Checkpoints
  import P = Publishing
  import PV = Provenance
  import OC = Outcomes
  import OO = OneOutcome
  import O = Observation
  import R = Reactions
  import JR = JobRuns

  /** feeds: the observation store of each connector account. */
  datatype System = System(store: P.Store, feeds: map<nat, O.Store>)

  const INIT := System(P.INIT, map[])

  datatype Event =
    | Pipeline(step: P.Event)
    | PublishNow(ticket: JR.Ticket, at: int, message: nat, parent: Option<nat>)
    | Observe(account: nat, event: O.Event)
    | Calculate(metric: nat, publication: nat, now: int)

  function FeedOf(s: System, account: nat): O.Store { if account in s.feeds then s.feeds[account] else O.INIT }

  /** Pipeline events with nothing to tell a feed. */
  predicate Inner(e: P.Event) { !e.MeasureMetric? && !(e.FinishOf? && e.outcome.Published?) }

  /** Feed events with nothing to tell the pipeline. */
  predicate Outer(e: O.Event) { e.Configure? || e.PollAt? || e.NormalizeRow? }

  predicate KnownAction(s: P.Store, t: JR.Ticket) {
    OO.Publishes(s, t, P.Published) && s.plans[t].action in s.actions
  }

  /** The account's reference of a message is unique. */
  predicate MayPublish(s: System, t: JR.Ticket, message: nat) {
    KnownAction(s.store, t) && message !in FeedOf(s, s.store.actions[s.store.plans[t].action].account).refs
  }

  function ContractOf(s: P.Store, d: nat): Option<Spec> { if d in s.checkpoints then Some(s.checkpoints[d]) else None }

  predicate MayCalculate(s: System, metric: nat, p: nat) {
    metric !in s.store.metrics && p < |s.store.publications| && s.store.publications[p].action in s.store.actions
  }

  function AccountOf(s: P.Store, p: nat): nat
    requires p < |s.publications| && s.publications[p].action in s.actions
  {
    s.actions[s.publications[p].action].account
  }

  /** The calculation stores a new version. */
  predicate NewVersion(f: O.Store, p: nat, now: int) {
    var d, latest := O.DerivationOf(f, p, now), O.Latest(O.MetricsOf(f, p));
    d.Some? && !(latest.Some? && latest.value.derivation == d.value)
  }

  function NewReading(f: O.Store, p: nat, now: int): Reading
    requires NewVersion(f, p, now)
  {
    var d := O.DerivationOf(f, p, now).value;
    Reading(O.NextMetric(O.Latest(O.MetricsOf(f, p)), d).value, d.availability, d.coverage)
  }

  /** The pipeline's part of a step; learning from a result that is not there stands for none. */
  function StoreEvent(s: System, e: Event): P.Event {
    match e
    case Pipeline(pe) => if Inner(pe) then pe else P.LearnFrom(|s.store.results|)
    case PublishNow(t, _, message, _) =>
      if MayPublish(s, t, message) then P.FinishOf(t, P.Published) else P.LearnFrom(|s.store.results|)
    case Observe(_, _) => P.LearnFrom(|s.store.results|)
    case Calculate(metric, p, now) =>
      if MayCalculate(s, metric, p) && NewVersion(FeedOf(s, AccountOf(s.store, p)), p, now)
      then P.MeasureMetric(metric, p, NewReading(FeedOf(s, AccountOf(s.store, p)), p, now))
      else P.LearnFrom(|s.store.results|)
  }

  /** The part of a step that concerns one account's feed; normalizing a row that is not there stands for none. */
  function FeedEvent(s: System, e: Event, account: nat): O.Event {
    var none := O.NormalizeRow(|FeedOf(s, account).rows.observations|);
    match e
    case Pipeline(_) => none
    case PublishNow(t, at, message, parent) =>
      if MayPublish(s, t, message) && s.store.actions[s.store.plans[t].action].account == account
      then O.Publish(|s.store.publications|, at, message, parent,
                     ContractOf(s.store, s.store.actions[s.store.plans[t].action].decision))
      else none
    case Observe(a, oe) => if a == account && Outer(oe) then oe else none
    case Calculate(metric, p, now) =>
      if MayCalculate(s, metric, p) && AccountOf(s.store, p) == account then O.Calculate(p, now) else none
  }

  /** The account whose feed a step moves. */
  function Moved(s: System, e: Event): Option<nat> {
    match e
    case Pipeline(_) => None
    case PublishNow(t, _, message, _) =>
      if MayPublish(s, t, message) then Some(s.store.actions[s.store.plans[t].action].account) else None
    case Observe(a, _) => Some(a)
    case Calculate(metric, p, _) => if MayCalculate(s, metric, p) then Some(AccountOf(s.store, p)) else None
  }

  ghost function Step(s: System, e: Event): System {
    var moved := Moved(s, e);
    System(P.Step(s.store, StoreEvent(s, e)),
           if moved.None? then s.feeds
           else s.feeds[moved.value := O.Step(FeedOf(s, moved.value), FeedEvent(s, e, moved.value))])
  }

  ghost function Run(es: seq<Event>): System {
    if |es| == 0 then INIT else Step(Run(es[..|es| - 1]), es[|es| - 1])
  }

  // ------------------------------------------------------------ the two sides of a run

  ghost function StoreTrace(es: seq<Event>): (t: seq<P.Event>)
    ensures |t| == |es|
  {
    if |es| == 0 then [] else StoreTrace(es[..|es| - 1]) + [StoreEvent(Run(es[..|es| - 1]), es[|es| - 1])]
  }

  ghost function FeedTrace(es: seq<Event>, account: nat): (t: seq<O.Event>)
    ensures |t| == |es|
  {
    if |es| == 0 then []
    else FeedTrace(es[..|es| - 1], account) + [FeedEvent(Run(es[..|es| - 1]), es[|es| - 1], account)]
  }

  /** The pipeline's side of a run is a run of the pipeline. */
  lemma {:induction false} StoreIsARun(es: seq<Event>)
    ensures Run(es).store == P.Run(P.INIT, StoreTrace(es))
  {
    if |es| > 0 {
      var front := es[..|es| - 1];
      StoreIsARun(front);
      assert StoreTrace(es)[..|es| - 1] == StoreTrace(front);
    }
  }

  lemma OtherFeedsRest(s: System, e: Event, account: nat)
    ensures FeedOf(Step(s, e), account) == O.Step(FeedOf(s, account), FeedEvent(s, e, account))
  {
    if Moved(s, e) != Some(account) {
      assert FeedEvent(s, e, account) == O.NormalizeRow(|FeedOf(s, account).rows.observations|);
    }
  }

  /** Each feed's side of a run is a run of the feed. */
  lemma {:induction false} FeedIsARun(es: seq<Event>, account: nat)
    ensures FeedOf(Run(es), account) == O.Run(O.INIT, FeedTrace(es, account))
  {
    if |es| > 0 {
      var front := es[..|es| - 1];
      FeedIsARun(front, account);
      OtherFeedsRest(Run(front), es[|es| - 1], account);
      assert FeedTrace(es, account)[..|es| - 1] == FeedTrace(front, account);
    }
  }

  lemma {:induction false} StoreTracePrefix(es: seq<Event>, k: nat)
    requires k <= |es|
    ensures StoreTrace(es)[..k] == StoreTrace(es[..k])
  {
    if k == |es| {
      assert es[..k] == es;
    } else {
      var front := es[..|es| - 1];
      assert front[..k] == es[..k];
      StoreTracePrefix(front, k);
    }
  }

  lemma RunPrefix(es: seq<Event>, k: nat)
    requires k < |es|
    ensures Run(es[..k + 1]) == Step(Run(es[..k]), es[k])
  {
    assert es[..k + 1][..k] == es[..k];
  }

  // ------------------------------------------------------------ contracts agree

  /** The contract a feed keeps for a publication is the checkpoint of its decision, if there is one. */
  predicate ContractHolds(s: System, f: O.Store, p: nat) {
    p in f.publications ==>
      && p < |s.store.publications|
      && var d := s.store.publications[p].decision;
         f.publications[p].contract == if d in s.store.checkpoints then Some(s.store.checkpoints[d]) else None
  }

  ghost predicate ContractsAgree(s: System) { forall a, p :: ContractHolds(s, FeedOf(s, a), p) }

  lemma FeedPublications(f: O.Store, e: O.Event, p: nat)
    requires p in O.Step(f, e).publications
    ensures
      || (p in f.publications && O.Step(f, e).publications[p] == f.publications[p])
      || (e.Publish? && p == e.publication && O.Step(f, e).publications[p].contract == e.contract)
  {}

  lemma PublishedRow(s: P.Store, t: JR.Ticket)
    requires PV.PlansOk(s) && KnownAction(s, t)
    ensures
      var v := P.Step(s, P.FinishOf(t, P.Published));
      && |v.publications| == |s.publications| + 1
      && v.publications[|s.publications|].decision == s.actions[s.plans[t].action].decision
  {
    OO.WhatPublishingDoes(s, t);
  }

  /** The checkpoint of a published decision is fixed. */
  lemma PublishedCheckpointStays(s: P.Store, e: P.Event, p: nat)
    requires PV.Inv(s) && p < |s.publications|
    ensures p < |P.Step(s, e).publications| && P.Step(s, e).publications[p] == s.publications[p]
    ensures
      var d := s.publications[p].decision;
      ContractOf(P.Step(s, e), d) == ContractOf(s, d)
  {
    assert PV.PublicationOk(s, p);
    P.StepPersists(s, e);
    assert P.Proposed(s.actions, s.publications[p].decision);
    OC.ProposalFreezesCheckpoint(s, e, s.publications[p].decision);
  }

  lemma NewContract(s: System, e: Event, a: nat)
    requires PV.PlansOk(s.store) && FeedEvent(s, e, a).Publish?
    ensures
      var oe, v := FeedEvent(s, e, a), Step(s, e).store;
      && oe.publication < |v.publications|
      && oe.contract == ContractOf(v, v.publications[oe.publication].decision)
  {
    PublishedRow(s.store, e.ticket);
    OC.CheckpointsFrame(s.store, StoreEvent(s, e));
  }

  lemma StepKeepsContract(s: System, e: Event, a: nat, p: nat)
    requires PV.Inv(s.store) && ContractsAgree(s)
    ensures ContractHolds(Step(s, e), FeedOf(Step(s, e), a), p)
  {
    var f, oe := FeedOf(s, a), FeedEvent(s, e, a);
    OtherFeedsRest(s, e, a);
    if p in O.Step(f, oe).publications {
      FeedPublications(f, oe, p);
      assert ContractHolds(s, f, p);
      if p in f.publications && O.Step(f, oe).publications[p] == f.publications[p] {
        PublishedCheckpointStays(s.store, StoreEvent(s, e), p);
      } else {
        NewContract(s, e, a);
      }
    }
  }

  /** In every joint run, each feed measures each of its publications by the checkpoint of its decision, and by none
      exactly when the decision has none. */
  lemma {:induction false} EveryRunAgrees(es: seq<Event>)
    ensures PV.Inv(Run(es).store) && ContractsAgree(Run(es))
  {
    StoreIsARun(es);
    PV.EveryRunKeepsInv(StoreTrace(es));
    if |es| > 0 {
      var front := es[..|es| - 1];
      EveryRunAgrees(front);
      forall a, p
        ensures ContractHolds(Run(es), FeedOf(Run(es), a), p)
      {
        StepKeepsContract(Run(front), es[|es| - 1], a, p);
      }
    }
  }

  /** What an account observes happens in its feed and nowhere else. */
  lemma ObservationsStayInTheirFeed(s: System, account: nat, e: O.Event, other: nat)
    requires e.Configure? || e.PollAt? || e.NormalizeRow?
    ensures Step(s, Observe(account, e)).store == s.store
    ensures FeedOf(Step(s, Observe(account, e)), account) == O.Step(FeedOf(s, account), e)
    ensures other != account ==> FeedOf(Step(s, Observe(account, e)), other) == FeedOf(s, other)
  {}

  /** A commit that publishes tells the account's feed when, under which message and chat, and for which publication. */
  lemma PublicationsReachTheirFeed(s: System, t: JR.Ticket, at: int, message: nat, parent: Option<nat>)
    requires PV.PlansOk(s.store) && ContractsAgree(s) && MayPublish(s, t, message)
    ensures
      var account, n := s.store.actions[s.store.plans[t].action].account, |s.store.publications|;
      var v := Step(s, PublishNow(t, at, message, parent));
      var f := FeedOf(v, account);
      && |v.store.publications| == n + 1
      && n in f.publications && f.publications[n].publishedAt == at
      && message in f.refs && f.refs[message] == O.Ref(parent, n)
  {
    var account, n := s.store.actions[s.store.plans[t].action].account, |s.store.publications|;
    assert ContractHolds(s, FeedOf(s, account), n);
    PublishedRow(s.store, t);
    OtherFeedsRest(s, PublishNow(t, at, message, parent), account);
  }

  // ------------------------------------------------------------ the result

  /** Step e calculates a new version of a metric. */
  predicate Stores(s: System, e: Event) {
    && e.Calculate? && MayCalculate(s, e.metric, e.publication)
    && NewVersion(FeedOf(s, AccountOf(s.store, e.publication)), e.publication, e.now)
  }

  function Derived(s: System, e: Event): O.Derivation
    requires Stores(s, e)
  {
    O.DerivationOf(FeedOf(s, AccountOf(s.store, e.publication)), e.publication, e.now).value
  }

  /** The new version is AVAILABLE. */
  predicate Calculates(s: System, e: Event) { Stores(s, e) && Derived(s, e).availability.AVAILABLE? }

  /** What NoLostReactions asks of the account's side of the run up to the calculation. */
  ghost predicate FaithfulUpTo(es: seq<Event>, e: Event, stream: set<R.Emission>, delay: int, d: int)
    requires Calculates(Run(es), e)
  {
    var account := AccountOf(Run(es).store, e.publication);
    var f := FeedOf(Run(es), account);
    && R.Ordered(stream) && R.Prompt(stream, delay) && 2 * d <= HOUR
    && R.FaithfulRun(stream, d, f.refs, FeedTrace(es, account))
    && R.Measured(f, e.publication) && R.InTime(f, e.publication, delay, d)
  }

  /** The reactions that truly happened to the publication in its window. */
  ghost function Truth(s: System, e: Event, stream: set<R.Emission>): nat
    requires Calculates(s, e)
  {
    |R.Truth(stream, FeedOf(s, AccountOf(s.store, e.publication)), e.publication)|
  }

  /** A new available reading is the complete one of the true count. */
  lemma ReadingIsTrue(es: seq<Event>, e: Event, stream: set<R.Emission>, delay: int, d: int)
    requires Calculates(Run(es), e) && FaithfulUpTo(es, e, stream, delay, d)
    ensures
      var s := Run(es);
      NewReading(FeedOf(s, AccountOf(s.store, e.publication)), e.publication, e.now) == Complete(Truth(s, e, stream))
  {
    var account := AccountOf(Run(es).store, e.publication);
    var f := FeedOf(Run(es), account);
    FeedIsARun(es, account);
    O.EveryRunKeepsInv(FeedTrace(es, account));
    R.NoLostReactions(stream, delay, d, FeedTrace(es, account), e.publication, e.now);
    O.DerivationIsStored(f, e.publication, O.DerivationOf(f, e.publication, e.now));
  }

  /** The metric row that a calculation adds to the pipeline reads like the version the feed stores. */
  lemma RowOfCalculation(s: System, e: Event)
    requires Stores(s, e) && e.metric in Step(s, e).store.metrics
    ensures
      var m, d := Step(s, e).store.metrics[e.metric], Derived(s, e);
      && m.publication == e.publication
      && m.reading == NewReading(FeedOf(s, AccountOf(s.store, e.publication)), e.publication, e.now)
      && m.reading.availability == d.availability && m.reading.coverage == d.coverage
      && m.reading.value == (if d.availability == AVAILABLE || |d.events| > 0 then Some(|d.events| as real) else None)
  {}

  /** The feed's contract and the row's are one. */
  lemma ContractOfCalculation(s: System, e: Event)
    requires ContractsAgree(s) && Calculates(s, e) && e.metric in Step(s, e).store.metrics
    ensures Step(s, e).store.metrics[e.metric].contract == Derived(s, e).contract
  {
    assert ContractHolds(s, FeedOf(s, AccountOf(s.store, e.publication)), e.publication);
  }

  /** The row of the metric keeps until the end of the run. */
  lemma RowKeeps(es: seq<Event>, k: nat, metric: nat)
    requires k <= |es| && metric in Run(es[..k]).store.metrics
    ensures metric in Run(es).store.metrics && Run(es).store.metrics[metric] == Run(es[..k]).store.metrics[metric]
  {
    StoreIsARun(es);
    StoreIsARun(es[..k]);
    StoreTracePrefix(es, k);
    OC.RunPersists(StoreTrace(es), k);
  }

  /** End to end: in every joint run, the result of a metric that was calculated as AVAILABLE in a
      faithful environment is the class of the true number of reactions, by the checkpoint that was
      registered before the measured publication was proposed. */
  lemma ResultsClassifyTrueReactions(es: seq<Event>, r: nat, k: nat, stream: set<R.Emission>, delay: int, d: int)
    requires r < |Run(es).store.results| && k < |es|
    requires Calculates(Run(es[..k]), es[k]) && es[k].metric == Run(es).store.results[r].metric
    requires es[k].metric in Run(es[..k + 1]).store.metrics && FaithfulUpTo(es[..k], es[k], stream, delay, d)
    ensures
      var result, spec := Run(es).store.results[r], Derived(Run(es[..k]), es[k]).contract;
      && Classify(spec, Complete(Truth(Run(es[..k]), es[k], stream))) == Ok(result.class_)
      && exists j: nat, action :: OC.PreregisteredAt(StoreTrace(es), j, action, result.decision, spec)
  {
    var s, result := Run(es).store, Run(es).store.results[r];
    StoreIsARun(es);
    OC.ResultsUsePreregisteredThresholds(StoreTrace(es), r);
    ReadingIsTrue(es[..k], es[k], stream, delay, d);
    RunPrefix(es, k);
    RowOfCalculation(Run(es[..k]), es[k]);
    RowKeeps(es, k + 1, es[k].metric);
    var m := s.metrics[result.metric];
    var action := s.publications[m.publication].action;
    var j: nat :| OC.PreregisteredAt(StoreTrace(es), j, action, result.decision, m.contract);
    assert m.reading == Complete(Truth(Run(es[..k]), es[k], stream));
    EveryRunAgrees(es[..k]);
    ContractOfCalculation(Run(es[..k]), es[k]);
  }

  /** And the result of a metric that was calculated as anything but AVAILABLE is INSUFFICIENT_DATA. */
  lemma OtherResultsAreInsufficient(es: seq<Event>, r: nat, k: nat)
    requires r < |Run(es).store.results| && k < |es|
    requires Stores(Run(es[..k]), es[k]) && es[k].metric == Run(es).store.results[r].metric
    requires es[k].metric in Run(es[..k + 1]).store.metrics
    requires Derived(Run(es[..k]), es[k]).availability != AVAILABLE
    ensures Run(es).store.results[r].class_ == INSUFFICIENT_DATA
  {
    StoreIsARun(es);
    OC.ResultsUsePreregisteredThresholds(StoreTrace(es), r);
    RunPrefix(es, k);
    RowOfCalculation(Run(es[..k]), es[k]);
    RowKeeps(es, k + 1, es[k].metric);
  }
}
