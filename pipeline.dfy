/** The deadline list's filter/sort pipeline (`filteredDeadlines`): three
    optional equality filters, where the text 'all' means "no constraint",
    then one stable sort by due date, priority rank or title, ascending or
    descending. */
module Pipeline {
  import opened Seqs
  import opened Sorting
  import opened Records
  import opened Buckets

  const All: string := "all"

  /** The three filter selects of the deadline view. */
  datatype FilterSpec = FilterSpec(clientId: string, priority: string, status: string)

  datatype SortField = DueDate | Priority | Title

  datatype SortSpec = SortSpec(field: SortField, ascending: bool)

  /** A deadline passes every filter that is not 'all'. */
  predicate Matches(f: FilterSpec, d: Deadline)
  {
    && (f.clientId == All || d.clientId == f.clientId)
    && (f.priority == All || d.priority == f.priority)
    && (f.status == All || d.status == f.status)
  }

  /** `{ high: 0, medium: 1, low: 2 }[p] ?? 1`. */
  function PriorityRank(p: string): (r: int)
    ensures 0 <= r <= 2
    ensures r == 0 <==> p == "high"
    ensures r == 2 <==> p == "low"
  {
    if p == "high" then 0
    else if p == "medium" then 1
    else if p == "low" then 2
    else 1
  }

  /** `x.localeCompare(y)`, for an abstract collation given by ranks: its sign
      is all the sort uses. */
  function LocaleCompare(collate: string -> int, x: string, y: string): int
  {
    collate(x) - collate(y)
  }

  /** The comparator passed to `result.sort`, as written. It is
      `key(a) - key(b)`, so sorting with it is sorting by `SortKey`. */
  function Compare(sort: SortSpec, collate: string -> int, a: Deadline, b: Deadline): (cmp: int)
    ensures cmp == SortKey(sort, collate)(a) - SortKey(sort, collate)(b)
  {
    var cmp :=
      match sort.field
      case DueDate => DueTime(a) - DueTime(b)
      case Priority => PriorityRank(a.priority) - PriorityRank(b.priority)
      case Title => LocaleCompare(collate, a.title, b.title);
    if sort.ascending then cmp else -cmp
  }

  /** The quantity each comparator subtracts. */
  function FieldKey(field: SortField, collate: string -> int, d: Deadline): int
  {
    match field
    case DueDate => DueTime(d)
    case Priority => PriorityRank(d.priority)
    case Title => collate(d.title)
  }

  /** The key the whole comparator subtracts: the field key, negated when
      descending. */
  function SortKey(sort: SortSpec, collate: string -> int): Deadline -> int
  {
    (d: Deadline) => if sort.ascending then FieldKey(sort.field, collate, d) else -FieldKey(sort.field, collate, d)
  }

  /** Descending negates the ascending comparator, which is the ascending
      comparator with its arguments swapped. */
  lemma DescendingReverses(field: SortField, collate: string -> int, a: Deadline, b: Deadline)
    ensures Compare(SortSpec(field, false), collate, a, b) == -Compare(SortSpec(field, true), collate, a, b)
    ensures Compare(SortSpec(field, false), collate, a, b) == Compare(SortSpec(field, true), collate, b, a)
  {
  }

  // ---------------------------------------------------------------------------
  // Reference definition

  function MatchTest(f: FilterSpec): Deadline -> bool
  {
    (d: Deadline) => Matches(f, d)
  }

  /** The deadlines that pass the filters, each as often as listed, in list
      order. */
  function Select(ds: seq<Deadline>, f: FilterSpec): (r: seq<Deadline>)
    ensures forall d :: d in r <==> d in ds && Matches(f, d)
    ensures forall d :: multiset(r)[d] == if Matches(f, d) then multiset(ds)[d] else 0
    ensures IsSubsequence(r, ds)
  {
    FilterIsSubsequence(ds, MatchTest(f));
    FilterMultiplicity(ds, MatchTest(f));
    Filter(ds, MatchTest(f))
  }

  /** What the pipeline shows: exactly the selected deadlines, each as often
      as listed, sorted by the key. */
  function Arranged(ds: seq<Deadline>, f: FilterSpec, sort: SortSpec, collate: string -> int): (r: seq<Deadline>)
    ensures multiset(r) == multiset(Select(ds, f))
    ensures forall d :: d in r <==> d in ds && Matches(f, d)
    ensures Sorted(r, SortKey(sort, collate))
  {
    InsertionSortSorted(Select(ds, f), SortKey(sort, collate));
    assert forall d :: d in InsertionSort(Select(ds, f), SortKey(sort, collate)) <==> d in multiset(Select(ds, f));
    InsertionSort(Select(ds, f), SortKey(sort, collate))
  }

  /** The shown deadlines are ordered by the selected field: ascending keys,
      or descending ones. */
  lemma ArrangedOrder(ds: seq<Deadline>, f: FilterSpec, sort: SortSpec, collate: string -> int)
    ensures forall i, j :: 0 <= i < j < |Arranged(ds, f, sort, collate)| ==>
      var r := Arranged(ds, f, sort, collate);
      if sort.ascending then FieldKey(sort.field, collate, r[i]) <= FieldKey(sort.field, collate, r[j])
      else FieldKey(sort.field, collate, r[i]) >= FieldKey(sort.field, collate, r[j])
  {
    InsertionSortSorted(Select(ds, f), SortKey(sort, collate));
  }

  /** Deadlines with equal sort keys keep their input order, in either
      direction. */
  lemma ArrangedStable(ds: seq<Deadline>, f: FilterSpec, sort: SortSpec, collate: string -> int, k: int)
    ensures WithKey(Arranged(ds, f, sort, collate), SortKey(sort, collate), k) ==
            WithKey(Select(ds, f), SortKey(sort, collate), k)
  {
    InsertionSortStable(Select(ds, f), SortKey(sort, collate), k);
  }

  /** Running the pipeline on its own output changes nothing. */
  lemma ArrangedIdempotent(ds: seq<Deadline>, f: FilterSpec, sort: SortSpec, collate: string -> int)
    ensures Arranged(Arranged(ds, f, sort, collate), f, sort, collate) == Arranged(ds, f, sort, collate)
  {
    var r := Arranged(ds, f, sort, collate);
    FilterKeepsAll(r, MatchTest(f));
    InsertionSortSorted(Select(ds, f), SortKey(sort, collate));
    SortSortedIsIdentity(r, SortKey(sort, collate));
  }

  // ---------------------------------------------------------------------------
  // The pipeline as the page runs it

  function ClientTest(clientId: string): Deadline -> bool
  {
    (d: Deadline) => d.clientId == clientId
  }

  function PriorityTest(priority: string): Deadline -> bool
  {
    (d: Deadline) => d.priority == priority
  }

  function StatusTest(status: string): Deadline -> bool
  {
    (d: Deadline) => d.status == status
  }

  /** The filters applied so far: the client filter alone, then with the
      priority filter. */
  function ClientStage(f: FilterSpec): Deadline -> bool
  {
    (d: Deadline) => f.clientId == All || d.clientId == f.clientId
  }

  function PriorityStage(f: FilterSpec): Deadline -> bool
  {
    (d: Deadline) => (f.clientId == All || d.clientId == f.clientId) && (f.priority == All || d.priority == f.priority)
  }

  /** The three filter steps of `filteredDeadlines`, each skipped when its
      select is 'all'. */
  method ApplyFilters(deadlines: seq<Deadline>, f: FilterSpec) returns (result: seq<Deadline>)
    ensures result == Select(deadlines, f)
  {
    result := deadlines;
    if f.clientId != All {
      result := Filter(result, ClientTest(f.clientId));
      FilterSame(deadlines, ClientTest(f.clientId), ClientStage(f));
    } else {
      FilterKeepsAll(deadlines, ClientStage(f));
    }
    assert result == Filter(deadlines, ClientStage(f));
    if f.priority != All {
      result := Filter(result, PriorityTest(f.priority));
      FilterTwice(deadlines, ClientStage(f), PriorityTest(f.priority), PriorityStage(f));
    } else {
      FilterSame(deadlines, ClientStage(f), PriorityStage(f));
    }
    assert result == Filter(deadlines, PriorityStage(f));
    if f.status != All {
      result := Filter(result, StatusTest(f.status));
      FilterTwice(deadlines, PriorityStage(f), StatusTest(f.status), MatchTest(f));
    } else {
      FilterSame(deadlines, PriorityStage(f), MatchTest(f));
    }
  }

  /** `filteredDeadlines`: filter a copy of the list, then sort it in place.
      The input is a value, so it is left as it was. */
  method FilteredDeadlines(deadlines: seq<Deadline>, f: FilterSpec, sort: SortSpec, collate: string -> int)
    returns (result: seq<Deadline>)
    ensures result == Arranged(deadlines, f, sort, collate)
    ensures forall d :: d in result <==> d in deadlines && Matches(f, d)
    ensures multiset(result) == multiset(Select(deadlines, f))
    ensures Sorted(result, SortKey(sort, collate))
    ensures forall k :: WithKey(result, SortKey(sort, collate), k) == WithKey(Select(deadlines, f), SortKey(sort, collate), k)
  {
    var selected := ApplyFilters(deadlines, f);
    var a := new Deadline[|selected|](i requires 0 <= i < |selected| => selected[i]);
    assert a[..] == selected;
    SortInPlace(a, SortKey(sort, collate));
    result := a[..];
    forall k ensures WithKey(result, SortKey(sort, collate), k) == WithKey(Select(deadlines, f), SortKey(sort, collate), k) {
      ArrangedStable(deadlines, f, sort, collate, k);
    }
  }
}
