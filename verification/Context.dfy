/**
 Scoped agent context (ai_runtime/context.py) and the validation of evidence references against
 the stored manifest (application/decision_workflow.py).

 Object ids are compared by their order only, so they are numbers; types are compared by their names.
 Content hashes are the items themselves.
 */
module Context {
  import opened Basics
  import Sorting

  datatype Kind =
    | Business | BusinessSnapshot | Constraint | ControllerReview | DecisionCandidate | EvidenceKind | Goal
    | SourceRecord | SpecialistContribution

  /** The types by their names. */
  function TypeName(k: Kind): string {
    match k
    case Business => "business"
    case BusinessSnapshot => "business_snapshot"
    case Constraint => "constraint"
    case ControllerReview => "controller_review"
    case DecisionCandidate => "decision_candidate"
    case EvidenceKind => "evidence"
    case Goal => "goal"
    case SourceRecord => "source_record"
    case SpecialistContribution => "specialist_contribution"
  }

  /** Alphabetical order. */
  predicate Before(a: string, b: string) {
    if |b| == 0 then false
    else if |a| == 0 || a[0] < b[0] then true
    else a[0] == b[0] && Before(a[1..], b[1..])
  }

  datatype Status =
    | OBSERVATION | FACT | DERIVED_FACT | HYPOTHESIS | ASSUMPTION | UNKNOWN | CONFLICT | REJECTED | INVALIDATED

  datatype Reference = Reference(kind: Kind, id: nat)

  datatype Item = Item(kind: Kind, id: nat, status: Status, occurredAt: Option<int>, content: string)

  /** A row with the scope test's outcome. */
  datatype Row = Row(inScope: bool, item: Item)

  /** The two spellings of an evidence reference: "type:id" and the bare id of an evidence row. */
  datatype RefName = Provenance(kind: Kind, id: nat) | Bare(id: nat)

  datatype EvidenceRef = EvidenceRef(name: RefName, status: Status)

  /** What the manifest keeps of an item. */
  datatype Entry = Entry(provenance: RefName, kind: Kind, id: nat, status: Status, hash: Item)

  datatype Contract = Contract(allowed: set<Kind>, required: set<Kind>)

  datatype Bundle = Bundle(items: seq<Item>, offered: seq<EvidenceRef>, manifest: seq<Entry>)

  predicate RefLe(a: Reference, b: Reference) {
    Before(TypeName(a.kind), TypeName(b.kind)) || (a.kind == b.kind && a.id <= b.id)
  }

  /** A missing date sorts first. */
  predicate DateLe(a: Option<int>, b: Option<int>) { a.None? || (b.Some? && a.value <= b.value) }

  predicate ItemLe(a: Item, b: Item) {
    || Before(TypeName(a.kind), TypeName(b.kind))
    || (a.kind == b.kind && (if a.occurredAt != b.occurredAt then DateLe(a.occurredAt, b.occurredAt) else a.id <= b.id))
  }

  // ------------------------------------------------------------ building

  function LoadAll(rows: map<Reference, Row>, allowed: set<Kind>, refs: seq<Reference>): Result<seq<Item>> {
    if |refs| == 0 then Ok([])
    else
      var front, r := LoadAll(rows, allowed, refs[..|refs| - 1]), refs[|refs| - 1];
      if front.Err? then front
      else if r.kind !in allowed then Err(NotEligible)
      else if r !in rows then front
      else if !rows[r].inScope then Err(NotFound)
      else Ok(front.value + [rows[r].item])
  }

  function RefsOf(i: Item): seq<EvidenceRef> {
    [EvidenceRef(Provenance(i.kind, i.id), i.status)] +
    if i.kind.EvidenceKind? then [EvidenceRef(Bare(i.id), i.status)] else []
  }

  function Offered(items: seq<Item>): seq<EvidenceRef> {
    if |items| == 0 then [] else Offered(items[..|items| - 1]) + RefsOf(items[|items| - 1])
  }

  function EntryOf(i: Item): Entry { Entry(Provenance(i.kind, i.id), i.kind, i.id, i.status, i) }

  function Manifest(items: seq<Item>): (entries: seq<Entry>)
    ensures |entries| == |items|
  {
    seq(|items|, i requires 0 <= i < |items| => EntryOf(items[i]))
  }

  predicate HasKind(items: seq<Item>, k: Kind) { exists i :: 0 <= i < |items| && items[i].kind == k }

  /** requested: what the caller asked for; found: what the default queries return when nothing is
      asked for; secret: the secret detector on the payload. */
  function Build(rows: map<Reference, Row>, contract: Contract, requested: seq<Reference>, found: seq<Reference>,
                 maxItems: nat, secret: seq<Item> -> bool): Result<Bundle>
  {
    var refs := Ordered(requested, found);
    var loaded := LoadAll(rows, contract.allowed, refs);
    if loaded.Err? then Err(loaded.error)
    else
      var sorted := Sorting.Sort(loaded.value, ItemLe);
      var items := if |sorted| <= maxItems then sorted else sorted[..maxItems];
      if exists k :: k in contract.required && !HasKind(items, k) then Err(NotReady)
      else if secret(items) then Err(SecretRejected)
      else Ok(Bundle(items, Offered(items), Manifest(items)))
  }

  // ------------------------------------------------------------ what a bundle holds

  /** The reference may be asked for, and what it names, if anything, is in scope. */
  predicate Loadable(rows: map<Reference, Row>, allowed: set<Kind>, r: Reference) {
    r.kind in allowed && (r in rows ==> rows[r].inScope)
  }

  /** Positions of the references that name this item. */
  function Naming(rows: map<Reference, Row>, refs: seq<Reference>, x: Item): set<nat> {
    set i: nat | i < |refs| && refs[i] in rows && rows[refs[i]].item == x
  }

  /** The listing has every item as often as the references name it. */
  ghost predicate Collected(items: seq<Item>, rows: map<Reference, Row>, refs: seq<Reference>) {
    forall x :: multiset(items)[x] == |Naming(rows, refs, x)|
  }

  lemma NamingSnoc(rows: map<Reference, Row>, refs: seq<Reference>, x: Item)
    requires |refs| > 0
    ensures
      var r := refs[|refs| - 1];
      |Naming(rows, refs, x)|
      == |Naming(rows, refs[..|refs| - 1], x)| + if r in rows && rows[r].item == x then 1 else 0
  {
    var n, r := |refs| - 1, refs[|refs| - 1];
    var front := Naming(rows, refs[..n], x);
    if r in rows && rows[r].item == x {
      assert Naming(rows, refs, x) == front + {n};
    } else {
      assert Naming(rows, refs, x) == front;
    }
  }

  /** Loading succeeds exactly when every reference may be asked for and none leads out of scope; the result is
      what the references name, each as often as it is named. */
  lemma {:induction false} LoadsIff(rows: map<Reference, Row>, allowed: set<Kind>, refs: seq<Reference>)
    ensures LoadAll(rows, allowed, refs).Ok? <==> forall i :: 0 <= i < |refs| ==> Loadable(rows, allowed, refs[i])
    ensures LoadAll(rows, allowed, refs).Ok? ==> Collected(LoadAll(rows, allowed, refs).value, rows, refs)
  {
    if |refs| == 0 {
      assert forall x :: Naming(rows, refs, x) == {};
    } else {
      var front, r := refs[..|refs| - 1], refs[|refs| - 1];
      LoadsIff(rows, allowed, front);
      assert forall i :: 0 <= i < |front| ==> front[i] == refs[i];
      if LoadAll(rows, allowed, refs).Ok? {
        forall x
          ensures multiset(LoadAll(rows, allowed, refs).value)[x] == |Naming(rows, refs, x)|
        {
          NamingSnoc(rows, refs, x);
        }
      }
    }
  }

  /** The first reference that cannot be loaded gives the error. */
  lemma {:induction false} FirstFailureIsReported(rows: map<Reference, Row>, allowed: set<Kind>, refs: seq<Reference>,
                                                  k: nat)
    requires k < |refs| && !Loadable(rows, allowed, refs[k])
    requires forall i :: 0 <= i < k ==> Loadable(rows, allowed, refs[i])
    ensures LoadAll(rows, allowed, refs) == Err(if refs[k].kind !in allowed then NotEligible else NotFound)
  {
    LoadsIff(rows, allowed, refs[..k]);
    assert refs[..k + 1][..k] == refs[..k];
    LoadErrorSticks(rows, allowed, refs, k + 1);
  }

  /** Order of a context: by type, then by date with a missing one first, then by id. */
  predicate InOrder(a: Item, b: Item) {
    && !Before(TypeName(b.kind), TypeName(a.kind))
    && (a.kind == b.kind ==>
          && (a.occurredAt.Some? ==> b.occurredAt.Some? && a.occurredAt.value <= b.occurredAt.value)
          && (a.occurredAt == b.occurredAt ==> a.id <= b.id))
  }

  lemma ItemOrder()
    ensures Sorting.Preorder(ItemLe)
  {
    KindOrder();
  }

  lemma ItemsAreInOrder(a: Item, b: Item)
    ensures ItemLe(a, b) <==> InOrder(a, b)
  {
    KindOrder();
  }

  predicate AllInOrder(items: seq<Item>) { forall i, k :: 0 <= i < k < |items| ==> InOrder(items[i], items[k]) }

  lemma SortIsInOrder(items: seq<Item>)
    ensures AllInOrder(Sorting.Sort(items, ItemLe))
  {
    ItemOrder();
    Sorting.SortSorts(items, ItemLe);
    var sorted := Sorting.Sort(items, ItemLe);
    forall i, k | 0 <= i < k < |sorted|
      ensures InOrder(sorted[i], sorted[k])
    {
      ItemsAreInOrder(sorted[i], sorted[k]);
    }
  }

  /** The items are the first ones, in order, of what the references name; with all of them if they fit. */
  ghost predicate Selected(items: seq<Item>, rows: map<Reference, Row>, refs: seq<Reference>, maxItems: nat) {
    exists rest ::
      && Collected(items + rest, rows, refs) && AllInOrder(items + rest)
      && |items| <= maxItems && (rest != [] ==> |items| == maxItems)
  }

  lemma SelectionIsSorted(rows: map<Reference, Row>, allowed: set<Kind>, refs: seq<Reference>, maxItems: nat)
    requires LoadAll(rows, allowed, refs).Ok?
    ensures
      var sorted := Sorting.Sort(LoadAll(rows, allowed, refs).value, ItemLe);
      Selected(if |sorted| <= maxItems then sorted else sorted[..maxItems], rows, refs, maxItems)
  {
    var loaded := LoadAll(rows, allowed, refs).value;
    LoadsIff(rows, allowed, refs);
    SortIsInOrder(loaded);
    Sorting.SortPermutes(loaded, ItemLe);
    FirstAreSelected(Sorting.Sort(loaded, ItemLe), rows, refs, maxItems);
  }

  lemma FirstAreSelected(sorted: seq<Item>, rows: map<Reference, Row>, refs: seq<Reference>, maxItems: nat)
    requires Collected(sorted, rows, refs) && AllInOrder(sorted)
    ensures Selected(if |sorted| <= maxItems then sorted else sorted[..maxItems], rows, refs, maxItems)
  {
    var items := if |sorted| <= maxItems then sorted else sorted[..maxItems];
    assert items + sorted[|items|..] == sorted;
  }

  lemma {:induction false} NamingAppend(rows: map<Reference, Row>, a: seq<Reference>, b: seq<Reference>, x: Item)
    ensures |Naming(rows, a + b, x)| == |Naming(rows, a, x)| + |Naming(rows, b, x)|
  {
    if |b| == 0 {
      assert a + b == a && Naming(rows, b, x) == {};
    } else {
      var front := b[..|b| - 1];
      assert (a + b)[..|a + b| - 1] == a + front;
      NamingAppend(rows, a, front, x);
      NamingSnoc(rows, a + b, x);
      NamingSnoc(rows, b, x);
    }
  }

  function Without(refs: seq<Reference>, j: nat): seq<Reference>
    requires j < |refs|
  {
    refs[..j] + refs[j + 1..]
  }

  lemma WithoutOne(refs: seq<Reference>, j: nat)
    requires j < |refs|
    ensures multiset(Without(refs, j)) == multiset(refs) - multiset{refs[j]}
  {
    assert refs == refs[..j] + [refs[j]] + refs[j + 1..];
  }

  lemma NamingWithout(rows: map<Reference, Row>, refs: seq<Reference>, j: nat, x: Item)
    requires j < |refs|
    ensures |Naming(rows, refs, x)| == |Naming(rows, Without(refs, j), x)| + |Naming(rows, [refs[j]], x)|
  {
    assert refs == refs[..j] + ([refs[j]] + refs[j + 1..]);
    NamingAppend(rows, refs[..j], [refs[j]] + refs[j + 1..], x);
    NamingAppend(rows, [refs[j]], refs[j + 1..], x);
    NamingAppend(rows, refs[..j], refs[j + 1..], x);
  }

  lemma {:induction false} NamingForgetsOrder(rows: map<Reference, Row>, a: seq<Reference>, b: seq<Reference>, x: Item)
    requires multiset(a) == multiset(b)
    ensures |Naming(rows, a, x)| == |Naming(rows, b, x)|
    decreases |a|
  {
    assert |multiset(a)| == |a| && |multiset(b)| == |b|;
    if |a| == 0 {
      assert a == b;
    } else {
      assert a[0] in multiset(b);
      var j :| 0 <= j < |b| && b[j] == a[0];
      WithoutOne(a, 0);
      WithoutOne(b, j);
      NamingForgetsOrder(rows, Without(a, 0), Without(b, j), x);
      NamingWithout(rows, a, 0, x);
      NamingWithout(rows, b, j, x);
    }
  }

  /** What the caller asked for, or else what the default queries found. */
  function Wanted(requested: seq<Reference>, found: seq<Reference>): seq<Reference> {
    if requested != [] then requested else found
  }

  function Ordered(requested: seq<Reference>, found: seq<Reference>): seq<Reference> {
    if requested != [] then Sorting.Sort(requested, RefLe) else found
  }

  lemma OrderedIsWanted(rows: map<Reference, Row>, requested: seq<Reference>, found: seq<Reference>)
    ensures multiset(Ordered(requested, found)) == multiset(Wanted(requested, found))
    ensures forall items :: Collected(items, rows, Ordered(requested, found)) ==>
      Collected(items, rows, Wanted(requested, found))
    ensures forall r :: r in Ordered(requested, found) <==> r in Wanted(requested, found)
  {
    Sorting.SortPermutes(requested, RefLe);
    forall x
      ensures |Naming(rows, Ordered(requested, found), x)| == |Naming(rows, Wanted(requested, found), x)|
    {
      NamingForgetsOrder(rows, Ordered(requested, found), Wanted(requested, found), x);
    }
    forall r
      ensures r in Ordered(requested, found) <==> r in Wanted(requested, found)
    {
      Sorting.SortKeepsElements(requested, RefLe, r);
    }
  }

  /** A bundle is refused for its references exactly when one of them may not be asked for or leads out of scope. */
  lemma BuildLoadsIff(rows: map<Reference, Row>, contract: Contract, requested: seq<Reference>, found: seq<Reference>,
                      maxItems: nat, secret: seq<Item> -> bool)
    ensures
      var r := Build(rows, contract, requested, found, maxItems, secret);
      (r == Err(NotEligible) || r == Err(NotFound)) <==>
        exists ref :: ref in Wanted(requested, found) && !Loadable(rows, contract.allowed, ref)
  {
    var refs := Ordered(requested, found);
    OrderedIsWanted(rows, requested, found);
    LoadsIff(rows, contract.allowed, refs);
    LoadErrors(rows, contract.allowed, refs);
    if LoadAll(rows, contract.allowed, refs).Err? {
      var i :| 0 <= i < |refs| && !Loadable(rows, contract.allowed, refs[i]);
      assert refs[i] in Wanted(requested, found);
    }
  }

  /** A built bundle holds the first items, in order, of what was wanted, and no secret; every required type is
      among them. */
  lemma BundleHolds(rows: map<Reference, Row>, contract: Contract, requested: seq<Reference>, found: seq<Reference>,
                    maxItems: nat, secret: seq<Item> -> bool)
    requires Build(rows, contract, requested, found, maxItems, secret).Ok?
    ensures
      var items := Build(rows, contract, requested, found, maxItems, secret).value.items;
      && Selected(items, rows, Wanted(requested, found), maxItems) && !secret(items)
      && (forall k :: k in contract.required ==> exists i :: 0 <= i < |items| && items[i].kind == k)
      && (forall r :: r in Wanted(requested, found) ==> Loadable(rows, contract.allowed, r))
  {
    SelectionIsSorted(rows, contract.allowed, Ordered(requested, found), maxItems);
    var items := Build(rows, contract, requested, found, maxItems, secret).value.items;
    SelectedWanted(rows, requested, found, items, maxItems);
    BuildLoadsIff(rows, contract, requested, found, maxItems, secret);
  }

  lemma SelectedWanted(rows: map<Reference, Row>, requested: seq<Reference>, found: seq<Reference>, items: seq<Item>,
                       maxItems: nat)
    requires Selected(items, rows, Ordered(requested, found), maxItems)
    ensures Selected(items, rows, Wanted(requested, found), maxItems)
  {
    OrderedIsWanted(rows, requested, found);
    var rest :|
      && Collected(items + rest, rows, Ordered(requested, found)) && AllInOrder(items + rest)
      && |items| <= maxItems && (rest != [] ==> |items| == maxItems);
    assert Collected(items + rest, rows, Wanted(requested, found));
  }

  lemma {:induction false} LoadErrors(rows: map<Reference, Row>, allowed: set<Kind>, refs: seq<Reference>)
    ensures LoadAll(rows, allowed, refs).Err? ==> LoadAll(rows, allowed, refs).error in {NotEligible, NotFound}
  {
    if |refs| > 0 { LoadErrors(rows, allowed, refs[..|refs| - 1]); }
  }

  lemma {:induction false} BeforeIsTotal(a: string, b: string)
    ensures !Before(a, a) && !(Before(a, b) && Before(b, a)) && (a == b || Before(a, b) || Before(b, a))
  {
    if |a| > 0 {
      BeforeIsTotal(a[1..], if |b| > 0 then b[1..] else b);
      assert |b| > 0 && a[0] == b[0] && a[1..] == b[1..] ==> a == [a[0]] + a[1..] == [b[0]] + b[1..] == b;
    }
  }

  lemma {:induction false} BeforeIsTransitive(a: string, b: string, c: string)
    requires Before(a, b) && Before(b, c)
    ensures Before(a, c)
  {
    if |a| > 0 && a[0] == b[0] == c[0] { BeforeIsTransitive(a[1..], b[1..], c[1..]); }
  }

  lemma NameShape(k: Kind)
    ensures |TypeName(k)| == (match k
      case Business => 8 case BusinessSnapshot => 17 case Constraint => 10 case ControllerReview => 17
      case DecisionCandidate => 18 case EvidenceKind => 8 case Goal => 4 case SourceRecord => 13
      case SpecialistContribution => 23)
    ensures k.Business? || k.BusinessSnapshot? <==> TypeName(k)[0] == 'b'
  {}

  /** The alphabet orders the types, strictly and totally. */
  lemma KindOrder()
    ensures forall a: Kind, b: Kind ::
      Before(TypeName(a), TypeName(b)) <==> a != b && !Before(TypeName(b), TypeName(a))
    ensures forall a: Kind, b: Kind, c: Kind ::
      Before(TypeName(a), TypeName(b)) && Before(TypeName(b), TypeName(c)) ==> Before(TypeName(a), TypeName(c))
  {
    forall a: Kind, b: Kind
      ensures Before(TypeName(a), TypeName(b)) <==> a != b && !Before(TypeName(b), TypeName(a))
    {
      BeforeIsTotal(TypeName(a), TypeName(b));
      NamesDiffer(a, b);
    }
    forall a: Kind, b: Kind, c: Kind | Before(TypeName(a), TypeName(b)) && Before(TypeName(b), TypeName(c))
      ensures Before(TypeName(a), TypeName(c))
    {
      BeforeIsTransitive(TypeName(a), TypeName(b), TypeName(c));
    }
  }

  lemma NamesDiffer(a: Kind, b: Kind)
    ensures TypeName(a) == TypeName(b) <==> a == b
  {
    NameShape(a);
    NameShape(b);
  }

  lemma RefOrder()
    ensures Sorting.Preorder(RefLe) && Sorting.Antisymmetric(RefLe)
  {
    KindOrder();
  }

  /** A bundle does not depend on the order in which its references were requested. */
  lemma RequestOrderDoesNotMatter(rows: map<Reference, Row>, contract: Contract, a: seq<Reference>, b: seq<Reference>,
                                  found: seq<Reference>, maxItems: nat, secret: seq<Item> -> bool)
    requires multiset(a) == multiset(b)
    ensures Build(rows, contract, a, found, maxItems, secret) == Build(rows, contract, b, found, maxItems, secret)
  {
    assert |multiset(a)| == |a| && |multiset(b)| == |b|;
    RefOrder();
    Sorting.SortForgetsOrder(a, b, RefLe);
  }

  // ------------------------------------------------------------ validating

  /** A dictionary filled from a listing: the last mention of a name wins. */
  function DictOf(refs: seq<EvidenceRef>): map<RefName, Status> {
    if |refs| == 0 then map[] else DictOf(refs[..|refs| - 1])[refs[|refs| - 1].name := refs[|refs| - 1].status]
  }

  function EntryStatuses(m: map<RefName, Status>, e: Entry): map<RefName, Status> {
    var named := m[e.provenance := e.status];
    if e.kind.EvidenceKind? then named[Bare(e.id) := e.status] else named
  }

  /** The statuses read back from the stored manifest. */
  function ManifestStatuses(entries: seq<Entry>): map<RefName, Status> {
    if |entries| == 0 then map[] else EntryStatuses(ManifestStatuses(entries[..|entries| - 1]), entries[|entries| - 1])
  }

  function Expected(entries: seq<Entry>, snapshot: nat, evidence: map<RefName, Status>): map<RefName, Status> {
    var statuses := ManifestStatuses(entries);
    if Provenance(BusinessSnapshot, snapshot) in statuses then statuses + evidence else statuses
  }

  predicate Accepts(expected: map<RefName, Status>, refs: seq<EvidenceRef>) {
    forall i :: 0 <= i < |refs| ==> refs[i].name in expected && expected[refs[i].name] == refs[i].status
  }

  lemma DictSnoc(refs: seq<EvidenceRef>, r: EvidenceRef)
    ensures DictOf(refs + [r]) == DictOf(refs)[r.name := r.status]
  {
    assert (refs + [r])[..|refs|] == refs;
  }

  lemma DictAppend(refs: seq<EvidenceRef>, i: Item)
    ensures DictOf(refs + RefsOf(i)) == EntryStatuses(DictOf(refs), EntryOf(i))
  {
    var named := EvidenceRef(Provenance(i.kind, i.id), i.status);
    DictSnoc(refs, named);
    if i.kind.EvidenceKind? {
      var bare := EvidenceRef(Bare(i.id), i.status);
      DictSnoc(refs + [named], bare);
      assert refs + RefsOf(i) == refs + [named] + [bare];
    }
  }

  /** What the context offers is what the manifest gives back. */
  lemma {:induction false} ManifestMirrorsOffer(items: seq<Item>)
    ensures ManifestStatuses(Manifest(items)) == DictOf(Offered(items))
  {
    if |items| > 0 {
      var front, last := items[..|items| - 1], items[|items| - 1];
      ManifestMirrorsOffer(front);
      DictAppend(Offered(front), last);
      assert Manifest(items)[..|items| - 1] == Manifest(front);
    }
  }

  /** Rows are stored under their own type and id. */
  predicate WellKept(rows: map<Reference, Row>) {
    forall r :: r in rows ==> rows[r].item.kind == r.kind && rows[r].item.id == r.id
  }

  predicate FromRows(rows: map<Reference, Row>, items: seq<Item>) {
    forall i :: 0 <= i < |items| ==>
      Reference(items[i].kind, items[i].id) in rows && rows[Reference(items[i].kind, items[i].id)].item == items[i]
  }

  /** Every mention of a name carries the status of the row it names. */
  predicate TrueRef(rows: map<Reference, Row>, r: EvidenceRef) {
    var key := match r.name case Provenance(k, id) => Reference(k, id) case Bare(id) => Reference(EvidenceKind, id);
    key in rows && rows[key].item.status == r.status
  }

  lemma {:induction false} OfferIsTrue(rows: map<Reference, Row>, items: seq<Item>, r: EvidenceRef)
    requires FromRows(rows, items) && r in Offered(items)
    ensures TrueRef(rows, r)
  {
    var front, last := items[..|items| - 1], items[|items| - 1];
    if r in Offered(front) {
      OfferIsTrue(rows, front, r);
    }
  }

  lemma {:induction false} DictHoldsMentions(rows: map<Reference, Row>, refs: seq<EvidenceRef>, name: RefName,
                                             status: Status)
    requires forall i :: 0 <= i < |refs| ==> TrueRef(rows, refs[i])
    ensures name in DictOf(refs) && DictOf(refs)[name] == status <==> EvidenceRef(name, status) in refs
  {
    if |refs| > 0 {
      var front, last := refs[..|refs| - 1], refs[|refs| - 1];
      DictHoldsMentions(rows, front, name, status);
      if name == last.name && EvidenceRef(name, status) in front {
        assert TrueRef(rows, EvidenceRef(name, status)) && TrueRef(rows, last);
      }
    }
  }

  lemma {:induction false} LoadedFromRows(rows: map<Reference, Row>, allowed: set<Kind>, refs: seq<Reference>)
    requires WellKept(rows) && LoadAll(rows, allowed, refs).Ok?
    ensures FromRows(rows, LoadAll(rows, allowed, refs).value)
  {
    if |refs| > 0 {
      LoadedFromRows(rows, allowed, refs[..|refs| - 1]);
    }
  }

  lemma BundleFromRows(rows: map<Reference, Row>, contract: Contract, requested: seq<Reference>, found: seq<Reference>,
                       maxItems: nat, secret: seq<Item> -> bool)
    requires WellKept(rows) && Build(rows, contract, requested, found, maxItems, secret).Ok?
    ensures
      var b := Build(rows, contract, requested, found, maxItems, secret).value;
      && FromRows(rows, b.items) && |b.items| <= maxItems
      && b.offered == Offered(b.items) && b.manifest == Manifest(b.items)
      && (forall k :: k in contract.required ==> HasKind(b.items, k))
  {
    var b := Build(rows, contract, requested, found, maxItems, secret).value;
    var refs := Ordered(requested, found);
    LoadedFromRows(rows, contract.allowed, refs);
    var loaded := LoadAll(rows, contract.allowed, refs).value;
    forall i | 0 <= i < |b.items|
      ensures b.items[i] in loaded
    {
      assert b.items[i] in Sorting.Sort(loaded, ItemLe);
      Sorting.SortKeepsElements(loaded, ItemLe, b.items[i]);
    }
  }

  /** Which references validation accepts for a built bundle, exactly: those it offered, except
      that an offered snapshot speaks for the evidence it lists. */
  lemma AcceptedExactly(rows: map<Reference, Row>, contract: Contract, requested: seq<Reference>, found: seq<Reference>,
                        maxItems: nat, secret: seq<Item> -> bool, snapshot: nat, evidence: map<RefName, Status>,
                        r: EvidenceRef)
    requires WellKept(rows) && Build(rows, contract, requested, found, maxItems, secret).Ok?
    ensures
      var b := Build(rows, contract, requested, found, maxItems, secret).value;
      var offersSnapshot := exists st :: EvidenceRef(Provenance(BusinessSnapshot, snapshot), st) in b.offered;
      Accepts(Expected(b.manifest, snapshot, evidence), [r]) <==>
        if offersSnapshot && r.name in evidence then evidence[r.name] == r.status else r in b.offered
  {
    BundleFromRows(rows, contract, requested, found, maxItems, secret);
    AcceptedOfItems(rows, Build(rows, contract, requested, found, maxItems, secret).value.items, snapshot, evidence, r);
  }

  lemma AcceptedOfItems(rows: map<Reference, Row>, items: seq<Item>, snapshot: nat, evidence: map<RefName, Status>,
                        r: EvidenceRef)
    requires FromRows(rows, items)
    ensures
      var offersSnapshot := exists st :: EvidenceRef(Provenance(BusinessSnapshot, snapshot), st) in Offered(items);
      Accepts(Expected(Manifest(items), snapshot, evidence), [r]) <==>
        if offersSnapshot && r.name in evidence then evidence[r.name] == r.status else r in Offered(items)
  {
    ManifestMirrorsOffer(items);
    forall i | 0 <= i < |Offered(items)|
      ensures TrueRef(rows, Offered(items)[i])
    {
      OfferIsTrue(rows, items, Offered(items)[i]);
    }
    DictHoldsMentions(rows, Offered(items), r.name, r.status);
    SnapshotOffered(rows, Offered(items), snapshot);
    AcceptsOne(Expected(Manifest(items), snapshot, evidence), r);
  }

  lemma AcceptsOne(expected: map<RefName, Status>, r: EvidenceRef)
    ensures Accepts(expected, [r]) <==> r.name in expected && expected[r.name] == r.status
  {
    assert [r][0] == r;
  }

  lemma SnapshotOffered(rows: map<Reference, Row>, refs: seq<EvidenceRef>, snapshot: nat)
    requires forall i :: 0 <= i < |refs| ==> TrueRef(rows, refs[i])
    ensures Provenance(BusinessSnapshot, snapshot) in DictOf(refs) <==>
      exists st :: EvidenceRef(Provenance(BusinessSnapshot, snapshot), st) in refs
  {
    var name := Provenance(BusinessSnapshot, snapshot);
    if name in DictOf(refs) {
      DictHoldsMentions(rows, refs, name, DictOf(refs)[name]);
    }
    if st :| EvidenceRef(name, st) in refs {
      DictHoldsMentions(rows, refs, name, st);
    }
  }

  /** An offered reference is refused exactly when the offered snapshot lists it with another status. */
  lemma OfferedIsRefusedIff(rows: map<Reference, Row>, contract: Contract, requested: seq<Reference>,
                            found: seq<Reference>,
                            maxItems: nat, secret: seq<Item> -> bool, snapshot: nat, evidence: map<RefName, Status>,
                            r: EvidenceRef)
    requires WellKept(rows) && Build(rows, contract, requested, found, maxItems, secret).Ok?
    requires r in Build(rows, contract, requested, found, maxItems, secret).value.offered
    ensures
      var b := Build(rows, contract, requested, found, maxItems, secret).value;
      var offersSnapshot := exists st :: EvidenceRef(Provenance(BusinessSnapshot, snapshot), st) in b.offered;
      !Accepts(Expected(b.manifest, snapshot, evidence), [r]) <==>
        offersSnapshot && r.name in evidence && evidence[r.name] != r.status
  {
    AcceptedExactly(rows, contract, requested, found, maxItems, secret, snapshot, evidence, r);
  }

  // ------------------------------------------------------------ the loops

  method BuildContext(rows: map<Reference, Row>, contract: Contract, requested: seq<Reference>, found: seq<Reference>,
                      maxItems: nat, secret: seq<Item> -> bool) returns (r: Result<Bundle>)
    ensures r == Build(rows, contract, requested, found, maxItems, secret)
  {
    var refs := if requested != [] then Sorting.Sort(requested, RefLe) else found;
    var loaded := LoadInOrder(rows, contract.allowed, refs);
    if loaded.Err? { return Err(loaded.error); }
    var sorted := Sorting.Sort(loaded.value, ItemLe);
    var items := if |sorted| <= maxItems then sorted else sorted[..maxItems];
    if exists k :: k in contract.required && !HasKind(items, k) { return Err(NotReady); }
    var offered := AllowedEvidenceRefs(items);
    if secret(items) { return Err(SecretRejected); }
    return Ok(Bundle(items, offered, Manifest(items)));
  }

  lemma {:induction false} LoadErrorSticks(rows: map<Reference, Row>, allowed: set<Kind>, refs: seq<Reference>, k: nat)
    requires k <= |refs| && LoadAll(rows, allowed, refs[..k]).Err?
    ensures LoadAll(rows, allowed, refs) == LoadAll(rows, allowed, refs[..k])
  {
    if k == |refs| {
      assert refs[..k] == refs;
    } else {
      assert refs[..|refs| - 1][..k] == refs[..k];
      LoadErrorSticks(rows, allowed, refs[..|refs| - 1], k);
    }
  }

  method LoadInOrder(rows: map<Reference, Row>, allowed: set<Kind>, refs: seq<Reference>) returns (r: Result<seq<Item>>)
    ensures r == LoadAll(rows, allowed, refs)
  {
    var items: seq<Item> := [];
    for i := 0 to |refs|
      invariant LoadAll(rows, allowed, refs[..i]) == Ok(items)
    {
      assert refs[..i + 1][..i] == refs[..i];
      if refs[i].kind !in allowed {
        LoadErrorSticks(rows, allowed, refs, i + 1);
        return Err(NotEligible);
      }
      if refs[i] in rows {
        if !rows[refs[i]].inScope {
          LoadErrorSticks(rows, allowed, refs, i + 1);
          return Err(NotFound);
        }
        items := items + [rows[refs[i]].item];
      }
    }
    assert refs[..|refs|] == refs;
    return Ok(items);
  }

  method AllowedEvidenceRefs(items: seq<Item>) returns (refs: seq<EvidenceRef>)
    ensures refs == Offered(items)
  {
    refs := [];
    for i := 0 to |items|
      invariant refs == Offered(items[..i])
    {
      assert items[..i + 1][..i] == items[..i];
      refs := refs + [EvidenceRef(Provenance(items[i].kind, items[i].id), items[i].status)];
      if items[i].kind.EvidenceKind? {
        refs := refs + [EvidenceRef(Bare(items[i].id), items[i].status)];
      }
    }
    assert items[..|items|] == items;
  }

  /** Fails on the first reference that is not among the expected ones with its status. */
  method ValidateEvidenceRefs(expected: map<RefName, Status>, refs: seq<EvidenceRef>) returns (r: Result<nat>)
    ensures r.Ok? <==> Accepts(expected, refs)
    ensures r.Ok? ==> r.value == |refs|
    ensures r.Err? ==>
      exists k :: 0 <= k < |refs| && Accepts(expected, refs[..k])
                  && r == Err(if refs[k].name !in expected then NotFound else NotEligible)
  {
    for i := 0 to |refs|
      invariant Accepts(expected, refs[..i])
    {
      assert refs[..i + 1] == refs[..i] + [refs[i]];
      if refs[i].name !in expected { return Err(NotFound); }
      if expected[refs[i].name] != refs[i].status { return Err(NotEligible); }
    }
    assert refs[..|refs|] == refs;
    return Ok(|refs|);
  }
}
