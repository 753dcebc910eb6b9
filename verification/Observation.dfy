/**
 Incremental observation of a Telegram connector account and the reaction metric computed
 from it (analytics/phase6.py): configuration, polling with an offset, gap detection,
 idempotent ingestion and normalization, and numbered metric versions.

 Row ids are positions in the row sequences; a poll runs alone on its account and either
 commits whole or leaves the store as it was.  Poll windows are also logged, oldest first,
 so that properties can speak about the committed polls of a run.
 */
module Observation {
  import opened Basics
  import opened Checkpoints
  import Sorting

  const RETENTION := 24 * HOUR

  datatype Kind = ChannelPost | Reaction | ReactionCount

  datatype Update = Update(id: int, kind: Kind, date: int, message: Option<nat>, chat: Option<nat>)

  /** An element of a provider response; only proper ones survive the parsing functions. */
  datatype Raw = Proper(update: Update) | Malformed(id: int) | NoId

  /** External reference of a published message with its link to the publication. */
  datatype Ref = Ref(parent: Option<nat>, publication: nat)

  datatype Observed = Observed(update: Update, ingestedAt: int)
  datatype BusinessEvent = BusinessEvent(kind: Kind, occurredAt: int, observation: nat, publication: Option<nat>)
  datatype Evidence = Evidence(observation: nat, occurredAt: int)
  datatype Link = Link(observation: nat, event: nat, evidence: nat, publication: Option<nat>)

  datatype Rows = Rows(
    observations: seq<Observed>,
    events: seq<BusinessEvent>,
    evidence: seq<Evidence>,
    links: seq<Link>)

  datatype Publication = Publication(publishedAt: int, contract: Option<Spec>)

  /** What the derivation hash of a metric version covers. */
  datatype Derivation = Derivation(
    publication: nat, contract: Spec, events: seq<nat>,
    availability: Availability, coverage: Coverage,
    windowStart: int, windowEnd: int, lastIngestAt: Option<int>)

  datatype Metric = Metric(version: nat, value: Option<real>, derivation: Derivation, previous: Option<nat>)

  datatype Poll = Poll(start: int, fetch: int, done: int)

  datatype Store = Store(
    state: Option<FeedState>,
    allowed: set<Kind>,
    refs: map<nat, Ref>,
    publications: map<nat, Publication>,
    rows: Rows,
    metrics: map<nat, seq<Metric>>,
    polls: seq<Poll>)

  const NO_ROWS := Rows([], [], [], [])
  const INIT := Store(None, {}, map[], map[], NO_ROWS, map[], [])

  // ------------------------------------------------------------ ingestion

  /** The publication an update belongs to: that of the reference with its message id, unless both name a chat and
      the chats differ. */
  function Resolve(refs: map<nat, Ref>, u: Update): Option<nat> {
    if u.message.None? || u.message.value !in refs then None
    else
      var ref := refs[u.message.value];
      if u.chat.Some? && ref.parent.Some? && u.chat != ref.parent then None else Some(ref.publication)
  }

  /** The update is about a message of publication p. */
  predicate About(u: Update, refs: map<nat, Ref>, p: nat) {
    && u.message.Some? && u.message.value in refs
    && var ref := refs[u.message.value];
       ref.publication == p && (u.chat.None? || ref.parent.None? || u.chat.value == ref.parent.value)
  }

  lemma ResolvesIff(u: Update, refs: map<nat, Ref>, p: nat)
    ensures Resolve(refs, u) == Some(p) <==> About(u, refs, p)
  {}

  function FindObservation(observations: seq<Observed>, id: int): Option<nat> {
    if |observations| == 0 then None
    else if observations[|observations| - 1].update.id == id then Some(|observations| - 1)
    else FindObservation(observations[..|observations| - 1], id)
  }

  function FindLink(links: seq<Link>, observation: nat): Option<nat> {
    if |links| == 0 then None
    else if links[|links| - 1].observation == observation then Some(|links| - 1)
    else FindLink(links[..|links| - 1], observation)
  }

  /** One event, one evidence row and one link per observation, made on first sight. */
  function Normalize(r: Rows, refs: map<nat, Ref>, i: nat): Rows
    requires i < |r.observations|
  {
    if FindLink(r.links, i).Some? then r
    else
      var u := r.observations[i].update;
      var publication := Resolve(refs, u);
      r.(events := r.events + [BusinessEvent(u.kind, u.date, i, publication)],
         evidence := r.evidence + [Evidence(i, u.date)],
         links := r.links + [Link(i, |r.events|, |r.evidence|, publication)])
  }

  lemma FindObservationFinds(observations: seq<Observed>, id: int)
    ensures
      var k := FindObservation(observations, id);
      if k.Some? then k.value < |observations| && observations[k.value].update.id == id
      else forall i :: 0 <= i < |observations| ==> observations[i].update.id != id
  {}

  lemma FindLinkFinds(links: seq<Link>, observation: nat)
    ensures
      var k := FindLink(links, observation);
      if k.Some? then k.value < |links| && links[k.value].observation == observation
      else forall i :: 0 <= i < |links| ==> links[i].observation != observation
  {}

  function Ingest(r: Rows, refs: map<nat, Ref>, u: Update, at: int): Rows {
    var found := FindObservation(r.observations, u.id);
    FindObservationFinds(r.observations, u.id);
    if found.Some? then Normalize(r, refs, found.value)
    else Normalize(r.(observations := r.observations + [Observed(u, at)]), refs, |r.observations|)
  }

  function IngestAll(r: Rows, refs: map<nat, Ref>, us: seq<Update>, at: int): Rows {
    if |us| == 0 then r
    else Ingest(IngestAll(r, refs, us[..|us| - 1], at), refs, us[|us| - 1], at)
  }

  predicate RowOk(r: Rows, i: nat)
    requires i < |r.observations| == |r.events| == |r.evidence| == |r.links|
  {
    var u := r.observations[i].update;
    && r.events[i].kind == u.kind && r.events[i].occurredAt == u.date && r.events[i].observation == i
    && r.evidence[i] == Evidence(i, u.date)
    && r.links[i] == Link(i, i, i, r.events[i].publication)
  }

  /** Exactly one observation per update id, and one event, evidence row and link for it. */
  predicate RowsOk(r: Rows) {
    && |r.observations| == |r.events| == |r.evidence| == |r.links|
    && (forall i :: 0 <= i < |r.observations| ==> RowOk(r, i))
    && (forall i, k :: 0 <= i < k < |r.observations| ==> r.observations[i].update.id != r.observations[k].update.id)
  }

  predicate Seen(r: Rows, u: Update) {
    exists i :: 0 <= i < |r.observations| && r.observations[i].update == u
  }

  /** Rows only get appended, and new events carry the link found at ingestion. */
  predicate Grows(r: Rows, v: Rows, refs: map<nat, Ref>) {
    && RowsOk(v) && |r.observations| == |r.events|
    && r.observations <= v.observations && r.events <= v.events
    && forall i :: |r.observations| <= i < |v.observations| ==>
         v.events[i].publication == Resolve(refs, v.observations[i].update)
  }

  lemma NormalizeIsIdempotent(r: Rows, refs: map<nat, Ref>, i: nat)
    requires RowsOk(r) && i < |r.observations|
    ensures Normalize(r, refs, i) == r
  {
    FindLinkFinds(r.links, i);
    assert RowOk(r, i);
  }

  lemma IngestNew(r: Rows, refs: map<nat, Ref>, u: Update, at: int)
    requires RowsOk(r) && FindObservation(r.observations, u.id).None?
    ensures Grows(r, Ingest(r, refs, u, at), refs)
    ensures Ingest(r, refs, u, at).observations == r.observations + [Observed(u, at)]
  {
    var n := |r.observations|;
    var v := Ingest(r, refs, u, at);
    FindObservationFinds(r.observations, u.id);
    FindLinkFinds(r.links, n);
    forall i | 0 <= i < n
      ensures r.links[i].observation == i
    {
      assert RowOk(r, i);
    }
    assert v.events == r.events + [BusinessEvent(u.kind, u.date, n, Resolve(refs, u))];
    forall i | 0 <= i < n + 1
      ensures RowOk(v, i)
    {
      if i < n { assert RowOk(r, i); }
    }
  }

  predicate Consistent(r: Rows, us: seq<Update>) {
    && (forall i, k :: 0 <= i < |us| && 0 <= k < |us| && us[i].id == us[k].id ==> us[i] == us[k])
    && (forall i, k :: 0 <= i < |us| && 0 <= k < |r.observations| && us[i].id == r.observations[k].update.id ==>
          us[i] == r.observations[k].update)
  }

  lemma IngestSpec(r: Rows, refs: map<nat, Ref>, u: Update, at: int)
    requires RowsOk(r)
    requires forall k :: 0 <= k < |r.observations| && u.id == r.observations[k].update.id ==>
      u == r.observations[k].update
    ensures Grows(r, Ingest(r, refs, u, at), refs)
    ensures forall x :: Seen(Ingest(r, refs, u, at), x) <==> Seen(r, x) || x == u
  {
    var v := Ingest(r, refs, u, at);
    FindObservationFinds(r.observations, u.id);
    var found := FindObservation(r.observations, u.id);
    if found.Some? {
      NormalizeIsIdempotent(r, refs, found.value);
      assert v == r && Seen(r, u);
    } else {
      IngestNew(r, refs, u, at);
      assert v.observations[|r.observations|].update == u;
      forall x
        ensures Seen(v, x) <==> Seen(r, x) || x == u
      {
        if Seen(r, x) {
          var i :| 0 <= i < |r.observations| && r.observations[i].update == x;
          assert v.observations[i].update == x;
        }
      }
    }
  }

  /** A batch adds precisely its own updates, in whatever order and however often they come. */
  lemma {:induction false} IngestAllSpec(r: Rows, refs: map<nat, Ref>, us: seq<Update>, at: int)
    requires RowsOk(r) && Consistent(r, us)
    ensures Grows(r, IngestAll(r, refs, us, at), refs)
    ensures forall x :: Seen(IngestAll(r, refs, us, at), x) <==> Seen(r, x) || x in us
  {
    if |us| > 0 {
      var init, u := us[..|us| - 1], us[|us| - 1];
      IngestAllSpec(r, refs, init, at);
      var m := IngestAll(r, refs, init, at);
      forall k | 0 <= k < |m.observations| && u.id == m.observations[k].update.id
        ensures u == m.observations[k].update
      {
        var x := m.observations[k].update;
        assert Seen(m, x);
        if x in init {
          var j :| 0 <= j < |init| && init[j] == x;
          assert us[j] == x;
        } else {
          var j :| 0 <= j < |r.observations| && r.observations[j].update == x;
          assert us[|us| - 1].id == r.observations[j].update.id;
        }
      }
      IngestSpec(m, refs, u, at);
      assert us == init + [u];
    }
  }

  // ------------------------------------------------------------ polling

  function RawId(r: Raw): int { match r case Proper(u) => u.id case Malformed(id) => id case NoId => 0 }

  predicate ById(a: Raw, b: Raw) { RawId(a) <= RawId(b) }

  predicate AllProper(raws: seq<Raw>) { forall i :: 0 <= i < |raws| ==> raws[i].Proper? }

  function Updates(raws: seq<Raw>): (us: seq<Update>)
    requires AllProper(raws)
    ensures |us| == |raws|
    ensures forall i :: 0 <= i < |raws| ==> us[i] == raws[i].update
  {
    seq(|raws|, i requires 0 <= i < |raws| => raws[i].update)
  }

  lemma SortKeepsProper(raws: seq<Raw>)
    ensures AllProper(Sorting.Sort(raws, ById)) <==> AllProper(raws)
  {
    var sorted := Sorting.Sort(raws, ById);
    if AllProper(raws) {
      forall i | 0 <= i < |sorted|
        ensures sorted[i].Proper?
      {
        Sorting.SortKeepsElements(raws, ById, sorted[i]);
      }
    }
    if AllProper(sorted) {
      forall i | 0 <= i < |raws|
        ensures raws[i].Proper?
      {
        Sorting.SortKeepsElements(raws, ById, raws[i]);
      }
    }
  }

  /** The updates of a response in the order they are ingested. */
  function Batch(raws: seq<Raw>): seq<Update>
    requires AllProper(raws)
  {
    SortKeepsProper(raws);
    Updates(Sorting.Sort(raws, ById))
  }

  /** Updates are ingested in the order of their ids. */
  lemma BatchInOrder(raws: seq<Raw>, i: nat, k: nat)
    requires AllProper(raws) && i < k < |Batch(raws)|
    ensures Batch(raws)[i].id <= Batch(raws)[k].id
  {
    SortKeepsProper(raws);
    Sorting.SortSorts(raws, ById);
    assert ById(Sorting.Sort(raws, ById)[i], Sorting.Sort(raws, ById)[k]);
  }

  lemma BatchKeepsElements(raws: seq<Raw>, u: Update)
    requires AllProper(raws)
    ensures u in Batch(raws) <==> Proper(u) in raws
  {
    SortKeepsProper(raws);
    var sorted := Sorting.Sort(raws, ById);
    Sorting.SortKeepsElements(raws, ById, Proper(u));
    if Proper(u) in sorted {
      var i :| 0 <= i < |sorted| && sorted[i] == Proper(u);
      assert Batch(raws)[i] == u;
    }
    if u in Batch(raws) {
      var i :| 0 <= i < |sorted| && Batch(raws)[i] == u;
      assert sorted[i] == Proper(u);
    }
  }

  function Later(last: Option<int>, id: int): Option<int> {
    if last.None? || id > last.value then Some(id) else last
  }

  function MaxId(last: Option<int>, us: seq<Update>): Option<int> {
    if |us| == 0 then last else Later(MaxId(last, us[..|us| - 1]), us[|us| - 1].id)
  }

  /** The new last_update_id is the old one or the id of an ingested update, and no less than any. */
  lemma {:induction false} MaxIdSpec(last: Option<int>, us: seq<Update>)
    ensures MaxId(last, us).None? <==> last.None? && us == []
    ensures last.Some? ==> MaxId(last, us).value >= last.value
    ensures forall i :: 0 <= i < |us| ==> MaxId(last, us).value >= us[i].id
    ensures MaxId(last, us) == last || exists i :: 0 <= i < |us| && MaxId(last, us) == Some(us[i].id)
  {
    if |us| > 0 {
      var init := us[..|us| - 1];
      MaxIdSpec(last, init);
      if MaxId(last, us) != Some(us[|us| - 1].id) && MaxId(last, init) != last {
        var i :| 0 <= i < |init| && MaxId(last, init) == Some(init[i].id);
        assert us[i] == init[i];
      }
    }
  }

  predicate SeesGap(st: FeedState, start: int) {
    st.lastIngestAt.Some? && start - st.lastIngestAt.value > GAP
  }

  function Offset(st: FeedState): Option<int> {
    if st.lastUpdateId.Some? then Some(st.lastUpdateId.value + 1) else None
  }

  predicate PollCommits(s: Store, response: Option<seq<Raw>>) {
    s.state.Some? && response.Some? && AllProper(response.value)
  }

  function AfterPoll(s: Store, start: int, fetch: int, done: int, raws: seq<Raw>): (v: Store)
    requires s.state.Some? && AllProper(raws)
    ensures v == s.(state := v.state, rows := v.rows, polls := v.polls)
  {
    var st, us := s.state.value, Batch(raws);
    s.(state := Some(st.(gapDetected := st.gapDetected || SeesGap(st, start),
                         lastUpdateId := MaxId(st.lastUpdateId, us),
                         lastIngestAt := Some(done))),
       rows := IngestAll(s.rows, s.refs, us, done),
       polls := s.polls + [Poll(start, fetch, done)])
  }

  // ------------------------------------------------------------ metrics

  predicate InWindow(kind: Kind, date: int, start: int, end: int) {
    !kind.ChannelPost? && start <= date <= end
  }

  predicate Included(e: BusinessEvent, p: nat, start: int, end: int) {
    InWindow(e.kind, e.occurredAt, start, end) && e.publication == Some(p)
  }

  /** Positions below n of the events a metric of p counts. */
  function Matching(events: seq<BusinessEvent>, n: nat, p: nat, start: int, end: int): seq<nat>
    requires n <= |events|
  {
    if n == 0 then []
    else
      Matching(events, n - 1, p, start, end) + if Included(events[n - 1], p, start, end) then [n - 1] else []
  }

  /** Events in the order of their time, and of their id where the times agree. */
  function ByTime(events: seq<BusinessEvent>): (nat, nat) -> bool {
    (a: nat, b: nat) => if a < |events| && b < |events| && events[a].occurredAt != events[b].occurredAt
                        then events[a].occurredAt < events[b].occurredAt else a <= b
  }

  function EventIds(events: seq<BusinessEvent>, p: nat, start: int, end: int): seq<nat> {
    Sorting.Sort(Matching(events, |events|, p, start, end), ByTime(events))
  }

  /** A reaction or a reaction count of publication p, no earlier than start and no later than end. */
  predicate Reacted(e: BusinessEvent, p: nat, start: int, end: int) {
    e.kind in {Reaction, ReactionCount} && start <= e.occurredAt <= end && e.publication == Some(p)
  }

  lemma {:induction false} MatchingAre(events: seq<BusinessEvent>, n: nat, p: nat, start: int, end: int)
    requires n <= |events|
    ensures forall i: nat :: i in Matching(events, n, p, start, end) <==> i < n && Reacted(events[i], p, start, end)
    ensures forall i: nat :: multiset(Matching(events, n, p, start, end))[i] <= 1
  {
    if n > 0 {
      MatchingAre(events, n - 1, p, start, end);
      var before, last: nat := Matching(events, n - 1, p, start, end), n - 1;
      assert last !in before && last !in multiset(before);
      assert Included(events[last], p, start, end) <==> Reacted(events[last], p, start, end);
      if Included(events[last], p, start, end) {
        assert multiset(before + [last]) == multiset(before) + multiset{last};
      }
    }
  }

  lemma TimeOrders(events: seq<BusinessEvent>)
    ensures Sorting.Preorder(ByTime(events))
  {}

  /** The listing holds every event of the window that concerns p, each once, in order of time and id. */
  ghost predicate Listed(ids: seq<nat>, events: seq<BusinessEvent>, p: nat, start: int, end: int) {
    && (forall i: nat :: i in ids <==> i < |events| && Reacted(events[i], p, start, end))
    && (forall k, m :: 0 <= k < m < |ids| ==>
          && ids[k] < |events| && ids[m] < |events| && ids[k] != ids[m]
          && (events[ids[k]].occurredAt < events[ids[m]].occurredAt
              || (events[ids[k]].occurredAt == events[ids[m]].occurredAt && ids[k] < ids[m])))
  }

  lemma RepeatsCount(ids: seq<nat>, k: nat, m: nat)
    requires k < m < |ids| && ids[k] == ids[m]
    ensures multiset(ids)[ids[k]] >= 2
  {
    assert ids == ids[..m] + ids[m..];
    assert ids[k] in ids[..m] && ids[m] in ids[m..];
    assert multiset(ids) == multiset(ids[..m]) + multiset(ids[m..]);
  }

  lemma EventIdsAre(events: seq<BusinessEvent>, p: nat, start: int, end: int)
    ensures Listed(EventIds(events, p, start, end), events, p, start, end)
  {
    var found, ids := Matching(events, |events|, p, start, end), EventIds(events, p, start, end);
    MatchingAre(events, |events|, p, start, end);
    TimeOrders(events);
    Sorting.SortPermutes(found, ByTime(events));
    Sorting.SortSorts(found, ByTime(events));
    forall i
      ensures i in ids <==> i in found
    {
      Sorting.SortKeepsElements(found, ByTime(events), i);
    }
    forall k, m | 0 <= k < m < |ids|
      ensures ids[k] < |events| && ids[m] < |events| && ids[k] != ids[m]
    {
      assert ids[k] in ids && ids[m] in ids;
      if ids[k] == ids[m] { RepeatsCount(ids, k, m); }
    }
  }

  /** The derivation of a publication's metric at a moment. */
  function Derive(state: Option<FeedState>, events: seq<BusinessEvent>, p: nat, start: int, contract: Spec,
                  now: int): Derivation {
    var end := start + contract.windowSeconds * SECOND;
    var (availability, coverage) := MetricCoverage(state, start, end, contract.graceSeconds, now);
    Derivation(p, contract, EventIds(events, p, start, end), availability, coverage, start, end,
               if state.Some? then state.value.lastIngestAt else None)
  }

  function DerivationOf(s: Store, p: nat, now: int): Option<Derivation> {
    if p !in s.publications || s.publications[p].contract.None? then None
    else Some(Derive(s.state, s.rows.events, p, s.publications[p].publishedAt, s.publications[p].contract.value, now))
  }

  /** What a derivation holds, spelled out: the window opens when the publication went out and is as long as its
      checkpoint says, and its events are those of the window. */
  ghost predicate Describes(d: Derivation, s: Store, p: nat, now: int) {
    && p in s.publications && s.publications[p].contract == Some(d.contract) && d.publication == p
    && d.windowStart == s.publications[p].publishedAt
    && d.windowEnd == s.publications[p].publishedAt + d.contract.windowSeconds * 1_000_000
    && Listed(d.events, s.rows.events, p, d.windowStart, d.windowEnd)
    && (d.availability, d.coverage)
       == MetricCoverage(s.state, d.windowStart, d.windowEnd, d.contract.graceSeconds, now)
    && d.lastIngestAt == (if s.state.Some? then s.state.value.lastIngestAt else None)
  }

  lemma DerivationDescribes(s: Store, p: nat, now: int)
    ensures DerivationOf(s, p, now).Some? <==> p in s.publications && s.publications[p].contract.Some?
    ensures DerivationOf(s, p, now).Some? ==> Describes(DerivationOf(s, p, now).value, s, p, now)
  {
    if DerivationOf(s, p, now).Some? {
      var d := DerivationOf(s, p, now).value;
      EventIdsAre(s.rows.events, p, d.windowStart, d.windowEnd);
    }
  }

  function Latest(ms: seq<Metric>): Option<Metric> {
    if |ms| == 0 then None
    else
      var before := Latest(ms[..|ms| - 1]);
      if before.None? || ms[|ms| - 1].version > before.value.version then Some(ms[|ms| - 1]) else before
  }

  function NextMetric(latest: Option<Metric>, d: Derivation): Metric {
    Metric(if latest.Some? then latest.value.version + 1 else 1,
           StoredValue(d.availability, |d.events|), d,
           if latest.Some? then Some(latest.value.version) else None)
  }

  function MetricsOf(s: Store, p: nat): seq<Metric> { if p in s.metrics then s.metrics[p] else [] }

  /** A derivation other than the newest version's is stored as the next version. */
  function WithDerivation(s: Store, p: nat, d: Option<Derivation>): (v: Store)
    ensures v == s.(metrics := v.metrics)
  {
    var latest := Latest(MetricsOf(s, p));
    if d.None? || (latest.Some? && latest.value.derivation == d.value) then s
    else s.(metrics := s.metrics[p := MetricsOf(s, p) + [NextMetric(latest, d.value)]])
  }

  function AfterCalculate(s: Store, p: nat, now: int): (v: Store)
    ensures v == s.(metrics := v.metrics)
  {
    WithDerivation(s, p, DerivationOf(s, p, now))
  }

  /** Versions 1..n, each pointing at the one before and differing from it in derivation. */
  predicate Chained(ms: seq<Metric>) { forall i :: 0 <= i < |ms| ==> VersionOk(ms, i) }

  predicate VersionOk(ms: seq<Metric>, i: nat)
    requires i < |ms|
  {
    && ms[i].version == i + 1
    && ms[i].value == StoredValue(ms[i].derivation.availability, |ms[i].derivation.events|)
    && ms[i].previous == (if i == 0 then None else Some(i))
    && (i > 0 ==> ms[i].derivation != ms[i - 1].derivation)
  }

  lemma {:induction false} LatestIsLast(ms: seq<Metric>)
    requires Chained(ms)
    ensures Latest(ms) == if ms == [] then None else Some(ms[|ms| - 1])
    ensures ms != [] ==> VersionOk(ms, |ms| - 1)
  {
    if |ms| > 0 {
      var front := ms[..|ms| - 1];
      forall i | 0 <= i < |front|
        ensures VersionOk(front, i)
      {
        assert VersionOk(ms, i);
      }
      LatestIsLast(front);
      assert VersionOk(ms, |ms| - 1);
      assert |ms| > 1 ==> VersionOk(ms, |ms| - 2);
    }
  }

  lemma ChainGrows(ms: seq<Metric>, d: Derivation)
    requires Chained(ms) && (ms == [] || ms[|ms| - 1].derivation != d)
    ensures Chained(ms + [NextMetric(Latest(ms), d)])
  {
    LatestIsLast(ms);
    var all := ms + [NextMetric(Latest(ms), d)];
    forall i | 0 <= i < |all|
      ensures VersionOk(all, i)
    {
      if i < |ms| {
        assert VersionOk(ms, i);
      } else if i > 0 {
        assert VersionOk(ms, i - 1);
      }
    }
  }

  lemma DerivationIsStored(s: Store, p: nat, d: Option<Derivation>)
    requires Chained(MetricsOf(s, p))
    ensures Chained(MetricsOf(WithDerivation(s, p, d), p))
    ensures d.Some? ==>
      var before, stored := Latest(MetricsOf(s, p)), Latest(MetricsOf(WithDerivation(s, p, d), p));
      && stored.Some? && stored.value.derivation == d.value
      && stored.value == (if before.Some? && before.value.derivation == d.value then before.value
                          else NextMetric(before, d.value))
  {
    var ms := MetricsOf(s, p);
    LatestIsLast(ms);
    if d.Some? && !(Latest(ms).Some? && Latest(ms).value.derivation == d.value) {
      ChainGrows(ms, d.value);
      LatestIsLast(ms + [NextMetric(Latest(ms), d.value)]);
    }
  }

  lemma CalculateKeepsChain(s: Store, p: nat, now: int)
    requires Chained(MetricsOf(s, p))
    ensures Chained(MetricsOf(AfterCalculate(s, p, now), p))
    ensures DerivationOf(s, p, now).Some? ==>
      Latest(MetricsOf(AfterCalculate(s, p, now), p)).Some?
      && Latest(MetricsOf(AfterCalculate(s, p, now), p)).value.derivation == DerivationOf(s, p, now).value
  {
    DerivationIsStored(s, p, DerivationOf(s, p, now));
  }

  // ------------------------------------------------------------ runs

  datatype Event =
    | Configure(now: int, ready: bool, supported: bool, allowed: set<Kind>)
    | Publish(publication: nat, publishedAt: int, message: nat, parent: Option<nat>, contract: Option<Spec>)
    | PollAt(start: int, fetch: int, done: int, response: Option<seq<Raw>>)
    | NormalizeRow(observation: nat)
    | Calculate(publication: nat, now: int)

  function Configured(s: Store, now: int, ready: bool, supported: bool, allowed: set<Kind>): (v: Store)
    ensures v == s.(state := v.state, allowed := v.allowed)
  {
    if !ready || !supported then s
    else if s.state.Some? then s.(allowed := allowed)
    else s.(allowed := allowed, state := Some(FeedState(now, None, None, false)))
  }

  function Published(s: Store, p: nat, at: int, message: nat, parent: Option<nat>, contract: Option<Spec>): (v: Store)
    ensures v == s.(publications := v.publications, refs := v.refs)
  {
    if p in s.publications || message in s.refs then s
    else s.(publications := s.publications[p := Publication(at, contract)], refs := s.refs[message := Ref(parent, p)])
  }

  function Normalized(s: Store, i: nat): (v: Store)
    ensures v == s.(rows := v.rows)
  {
    if i < |s.rows.observations| then s.(rows := Normalize(s.rows, s.refs, i)) else s
  }

  function Step(s: Store, e: Event): Store {
    match e
    case Configure(now, ready, supported, allowed) => Configured(s, now, ready, supported, allowed)
    case Publish(p, at, message, parent, contract) =>
      Published(s, p, at, message, parent, contract)
    case PollAt(start, fetch, done, response) =>
      if PollCommits(s, response) then AfterPoll(s, start, fetch, done, response.value) else s
    case NormalizeRow(i) => Normalized(s, i)
    case Calculate(p, now) => AfterCalculate(s, p, now)
  }

  function Run(s: Store, es: seq<Event>): Store {
    if |es| == 0 then s else Step(Run(s, es[..|es| - 1]), es[|es| - 1])
  }

  /** A publication enters a feed once, with the time it went out, its contract and its message's reference. */
  lemma PublicationEnters(s: Store, p: nat, at: int, message: nat, parent: Option<nat>, contract: Option<Spec>)
    requires p !in s.publications && message !in s.refs
    ensures
      var v := Step(s, Publish(p, at, message, parent, contract));
      && v.publications.Keys == s.publications.Keys + {p} && v.refs.Keys == s.refs.Keys + {message}
      && v.publications[p] == Publication(at, contract) && v.refs[message] == Ref(parent, p)
      && (forall q :: q in s.publications ==> v.publications[q] == s.publications[q])
      && (forall m :: m in s.refs ==> v.refs[m] == s.refs[m])
  {}

  /** Two neighbouring committed polls with more than 23 hours from the end of one to the start of the next. */
  predicate GapIn(polls: seq<Poll>) {
    exists i :: 0 <= i < |polls| - 1 && polls[i + 1].start - polls[i].done > GAP
  }

  /** The feed state says about the committed polls what it should. */
  predicate HistoryOk(s: Store) {
    && (s.state.None? ==> s.polls == [])
    && (s.state.Some? ==>
          && s.state.value.lastIngestAt == (if s.polls == [] then None else Some(s.polls[|s.polls| - 1].done))
          && (s.state.value.gapDetected <==> GapIn(s.polls)))
  }

  lemma GapInSnoc(polls: seq<Poll>, q: Poll)
    ensures GapIn(polls + [q]) <==> GapIn(polls) || (|polls| > 0 && q.start - polls[|polls| - 1].done > GAP)
  {
    var all := polls + [q];
    if GapIn(polls) {
      var i :| 0 <= i < |polls| - 1 && polls[i + 1].start - polls[i].done > GAP;
      assert all[i + 1].start - all[i].done > GAP;
    }
    if |polls| > 0 && q.start - polls[|polls| - 1].done > GAP {
      assert all[|polls| - 1 + 1].start - all[|polls| - 1].done > GAP;
    }
    if GapIn(all) {
      var i :| 0 <= i < |all| - 1 && all[i + 1].start - all[i].done > GAP;
      assert i < |polls| - 1 ==> polls[i + 1].start - polls[i].done > GAP;
    }
  }

  lemma StepKeepsHistory(s: Store, e: Event)
    requires HistoryOk(s)
    ensures HistoryOk(Step(s, e))
  {
    if e.PollAt? && PollCommits(s, e.response) {
      GapInSnoc(s.polls, Poll(e.start, e.fetch, e.done));
    }
  }

  /** gap_detected is exact after any mix of committed and failed polls and reconfigurations. */
  lemma {:induction false} GapFlagExact(es: seq<Event>)
    ensures HistoryOk(Run(INIT, es))
    ensures
      var s := Run(INIT, es);
      s.state.Some? ==> (s.state.value.gapDetected <==> GapIn(s.polls))
  {
    if |es| > 0 {
      GapFlagExact(es[..|es| - 1]);
      StepKeepsHistory(Run(INIT, es[..|es| - 1]), es[|es| - 1]);
    }
  }

  predicate Failing(s: Store, es: seq<Event>) {
    forall i :: 0 <= i < |es| ==> es[i].PollAt? && !PollCommits(s, es[i].response)
  }

  lemma {:induction false} FailedPollsChangeNothing(s: Store, es: seq<Event>)
    requires Failing(s, es)
    ensures Run(s, es) == s
  {
    if |es| > 0 {
      FailedPollsChangeNothing(s, es[..|es| - 1]);
    }
  }

  /** A flag rolled back by a failing poll is raised again by the next poll that commits,
      however many fail in between. */
  lemma RolledBackGapReturns(s: Store, seenAt: int, es: seq<Event>, e: Event)
    requires s.state.Some? && SeesGap(s.state.value, seenAt)
    requires Failing(s, es) && e.PollAt? && PollCommits(s, e.response) && seenAt <= e.start
    ensures Step(Run(s, es), e).state.Some? && Step(Run(s, es), e).state.value.gapDetected
  {
    FailedPollsChangeNothing(s, es);
  }

  predicate MetricsOk(s: Store) { forall p :: p in s.metrics ==> Chained(s.metrics[p]) }

  predicate Inv(s: Store) { HistoryOk(s) && RowsOk(s.rows) && MetricsOk(s) }

  lemma {:induction false} IngestAllKeepsRows(r: Rows, refs: map<nat, Ref>, us: seq<Update>, at: int)
    requires RowsOk(r)
    ensures RowsOk(IngestAll(r, refs, us, at))
  {
    if |us| > 0 {
      var u := us[|us| - 1];
      IngestAllKeepsRows(r, refs, us[..|us| - 1], at);
      var m := IngestAll(r, refs, us[..|us| - 1], at);
      FindObservationFinds(m.observations, u.id);
      if FindObservation(m.observations, u.id).Some? {
        NormalizeIsIdempotent(m, refs, FindObservation(m.observations, u.id).value);
      } else {
        IngestNew(m, refs, u, at);
      }
    }
  }

  lemma StepKeepsRows(s: Store, e: Event)
    requires RowsOk(s.rows)
    ensures RowsOk(Step(s, e).rows)
    ensures !(e.PollAt? && PollCommits(s, e.response)) ==> Step(s, e).rows == s.rows && Step(s, e).polls == s.polls
  {
    if e.PollAt? && PollCommits(s, e.response) {
      IngestAllKeepsRows(s.rows, s.refs, Batch(e.response.value), e.done);
    } else if e.NormalizeRow? && e.observation < |s.rows.observations| {
      NormalizeIsIdempotent(s.rows, s.refs, e.observation);
    }
  }

  lemma CalculateKeepsMetrics(s: Store, p: nat, now: int)
    requires MetricsOk(s)
    ensures MetricsOk(AfterCalculate(s, p, now))
  {
    CalculateKeepsChain(s, p, now);
  }

  lemma StepKeepsMetrics(s: Store, e: Event)
    requires MetricsOk(s)
    ensures MetricsOk(Step(s, e))
  {
    if e.Calculate? {
      CalculateKeepsMetrics(s, e.publication, e.now);
    } else {
      assert Step(s, e).metrics == s.metrics;
    }
  }

  lemma StepKeepsInv(s: Store, e: Event)
    requires Inv(s)
    ensures Inv(Step(s, e))
  {
    StepKeepsHistory(s, e);
    StepKeepsRows(s, e);
    StepKeepsMetrics(s, e);
  }

  /** In every run: one observation, event, evidence row and link per update id; metric
      versions numbered, chained and never repeated; the feed state true to the polls. */
  lemma {:induction false} EveryRunKeepsInv(es: seq<Event>)
    ensures Inv(Run(INIT, es))
    ensures
      var r := Run(INIT, es).rows;
      && |r.observations| == |r.events| == |r.evidence| == |r.links|
      && forall i, k :: 0 <= i < k < |r.observations| ==> r.observations[i].update.id != r.observations[k].update.id
    ensures forall p :: p in Run(INIT, es).metrics ==> Chained(Run(INIT, es).metrics[p])
  {
    if |es| > 0 {
      EveryRunKeepsInv(es[..|es| - 1]);
      StepKeepsInv(Run(INIT, es[..|es| - 1]), es[|es| - 1]);
    }
  }

  lemma OffsetStep(s: Store, e: Event)
    requires s.state.Some? && s.state.value.lastUpdateId.Some?
    ensures Step(s, e).state.Some? && Step(s, e).state.value.lastUpdateId.Some?
    ensures s.state.value.lastUpdateId.value <= Step(s, e).state.value.lastUpdateId.value
  {
    if e.PollAt? && PollCommits(s, e.response) {
      MaxIdSpec(s.state.value.lastUpdateId, Batch(e.response.value));
    }
  }

  /** The offset never goes back. */
  lemma {:induction false} LastIdNeverFalls(s: Store, es: seq<Event>)
    requires s.state.Some? && s.state.value.lastUpdateId.Some?
    ensures Run(s, es).state.Some? && Run(s, es).state.value.lastUpdateId.Some?
    ensures s.state.value.lastUpdateId.value <= Run(s, es).state.value.lastUpdateId.value
  {
    if |es| > 0 {
      LastIdNeverFalls(s, es[..|es| - 1]);
      OffsetStep(Run(s, es[..|es| - 1]), es[|es| - 1]);
    }
  }

  // ------------------------------------------------------------ the operations in place

  class Feed {
    var state: Option<FeedState>
    var allowed: set<Kind>
    var refs: map<nat, Ref>
    var publications: map<nat, Publication>
    var rows: Rows
    var metrics: map<nat, seq<Metric>>
    ghost var polls: seq<Poll>

    ghost function Value(): Store
      reads this
    {
      Store(state, allowed, refs, publications, rows, metrics, polls)
    }

    constructor ()
      ensures Value() == INIT
    {
      state, allowed, refs, publications := None, {}, map[], map[];
      rows, metrics, polls := NO_ROWS, map[], [];
    }

    method ConfigureObservation(now: int, ready: bool, supported: bool, kinds: set<Kind>) returns (r: Result<bool>)
      modifies this
      ensures Value() == Step(old(Value()), Configure(now, ready, supported, kinds))
      ensures r == if ready && supported then Ok(true) else Err(NotReady)
    {
      if !ready || !supported { return Err(NotReady); }
      allowed := kinds;
      if state.None? {
        state := Some(FeedState(now, None, None, false));
      }
      return Ok(true);
    }

    /** Works on copies until the end, so that an error leaves the store as it was. */
    method HandlePoll(start: int, fetch: int, done: int, response: Option<seq<Raw>>) returns (r: Result<Option<int>>)
      modifies this
      ensures PollCommits(old(Value()), response) ==>
        Value() == AfterPoll(old(Value()), start, fetch, done, response.value)
      ensures !PollCommits(old(Value()), response) ==> Value() == old(Value())
      ensures r.Ok? <==> PollCommits(old(Value()), response)
      ensures r.Ok? ==> state.Some? && r.value == state.value.lastUpdateId
      ensures r.Err? ==>
        r.error == if old(state).None? then NotFound else if response.None? then NotReady else NotEligible
    {
      if state.None? { return Err(NotFound); }
      if response.None? { return Err(NotReady); }
      var st := state.value;
      if SeesGap(st, start) {
        st := st.(gapDetected := true);
      }
      var ingested := IngestResponse(rows, refs, st.lastUpdateId, response.value, done);
      if ingested.Err? { return Err(ingested.error); }
      state := Some(st.(lastUpdateId := ingested.value.1, lastIngestAt := Some(done)));
      rows := ingested.value.0;
      polls := polls + [Poll(start, fetch, done)];
      return Ok(ingested.value.1);
    }

    method CalculateMetricVersion(p: nat, now: int) returns (r: Result<Metric>)
      requires MetricsOk(Value())
      modifies this`metrics
      ensures Value() == AfterCalculate(old(Value()), p, now)
      ensures MetricsOk(Value())
      ensures r.Ok? <==> p in publications && publications[p].contract.Some?
      ensures r.Ok? ==> p in metrics && r.value in metrics[p]
                        && DerivationOf(old(Value()), p, now) == Some(r.value.derivation)
                        && Describes(r.value.derivation, old(Value()), p, now)
      ensures r.Ok? ==>
        var d := r.value.derivation;
        r.value.value == if d.availability == AVAILABLE || |d.events| > 0 then Some(|d.events| as real) else None
    {
      if p !in publications || publications[p].contract.None? { return Err(NotFound); }
      CalculateKeepsChain(Value(), p, now);
      DerivationDescribes(Value(), p, now);
      var derivation := Derive(state, rows.events, p, publications[p].publishedAt, publications[p].contract.value, now);
      var versions := if p in metrics then metrics[p] else [];
      LatestIsLast(versions);
      var metric := AddVersion(versions, derivation);
      if metric.version > |versions| {
        metrics := metrics[p := versions + [metric]];
      }
      return Ok(metric);
    }
  }

  lemma UpdatesSnoc(raws: seq<Raw>, i: nat)
    requires i < |raws| && AllProper(raws[..i + 1])
    ensures AllProper(raws[..i]) && raws[i].Proper?
    ensures Updates(raws[..i + 1]) == Updates(raws[..i]) + [raws[i].update]
  {
    assert forall k :: 0 <= k < i ==> raws[..i][k] == raws[..i + 1][k];
    assert raws[i] == raws[..i + 1][i];
  }

  /** The loop of the poll handler; an element that does not parse ends it with an error. */
  method IngestInOrder(rows: Rows, refs: map<nat, Ref>, lastId: Option<int>, raws: seq<Raw>, at: int)
      returns (r: Result<(Rows, Option<int>)>)
    ensures r.Ok? <==> AllProper(raws)
    ensures r.Err? ==> r.error == NotEligible
    ensures r.Ok? ==> r.value == (IngestAll(rows, refs, Updates(raws), at), MaxId(lastId, Updates(raws)))
  {
    var last, newRows, i := lastId, rows, 0;
    while i < |raws|
      invariant 0 <= i <= |raws|
      invariant AllProper(raws[..i])
      invariant newRows == IngestAll(rows, refs, Updates(raws[..i]), at)
      invariant last == MaxId(lastId, Updates(raws[..i]))
    {
      if !raws[i].Proper? { return Err(NotEligible); }
      UpdatesSnoc(raws, i);
      newRows, last := Ingest(newRows, refs, raws[i].update, at), Later(last, raws[i].update.id);
      i := i + 1;
    }
    assert raws[..i] == raws;
    return Ok((newRows, last));
  }

  method IngestResponse(rows: Rows, refs: map<nat, Ref>, lastId: Option<int>, raws: seq<Raw>, at: int)
      returns (r: Result<(Rows, Option<int>)>)
    ensures r.Ok? <==> AllProper(raws)
    ensures r.Err? ==> r.error == NotEligible
    ensures r.Ok? ==> r.value == (IngestAll(rows, refs, Batch(raws), at), MaxId(lastId, Batch(raws)))
    ensures r.Ok? && RowsOk(rows) ==> RowsOk(r.value.0)
  {
    if NoId in raws { return Err(NotEligible); }
    SortKeepsProper(raws);
    r := IngestInOrder(rows, refs, lastId, Sorting.Sort(raws, ById), at);
    if r.Ok? && RowsOk(rows) { IngestAllKeepsRows(rows, refs, Batch(raws), at); }
  }

  /** The version that stands for a derivation: the newest one if it has it already, else the next. */
  method AddVersion(versions: seq<Metric>, derivation: Derivation) returns (m: Metric)
    requires Chained(versions)
    ensures m.derivation == derivation
    ensures m.version <= |versions| ==> versions != [] && m == versions[|versions| - 1]
    ensures m.version > |versions| ==> Chained(versions + [m])
    ensures m.version > |versions| <==> versions == [] || versions[|versions| - 1].derivation != derivation
    ensures m.version > |versions| ==> m == NextMetric(Latest(versions), derivation)
  {
    LatestIsLast(versions);
    var latest := Latest(versions);
    if latest.Some? && latest.value.derivation == derivation { return latest.value; }
    ChainGrows(versions, derivation);
    m := NextMetric(latest, derivation);
  }
}
