/** The time buckets of the dashboard (`overdueDeadlines`, `upcomingDeadlines`,
    `thisWeekDeadlines`), the timeline built from them and a client's quick
    stats. Every bucket takes the same instant `now`: the page memoises
    `today` once, so all three share one snapshot. */
module Buckets {
  import opened Wrappers
  import opened Seqs
  import opened Sorting
  import opened Records
  import opened Calendar

  predicate IsOpen(d: Deadline)
  {
    d.status != Complete
  }

  /** `parseISO(d.dueDate).getTime()`: the instant the due day starts. */
  function DueTime(d: Deadline): int
  {
    Midnight(d.dueDate)
  }

  /** `isBefore(parseISO(d.dueDate), today)`. */
  predicate DueBefore(d: Deadline, now: int)
  {
    DueTime(d) < now
  }

  /** `isWithinInterval(parseISO(d.dueDate), { start: weekStart, end: weekEnd })`,
      both ends inclusive. */
  predicate DueInWeek(d: Deadline, now: int)
  {
    WeekStart(now) <= DueTime(d) <= WeekEnd(now)
  }

  predicate IsOverdue(d: Deadline, now: int)
  {
    IsOpen(d) && DueBefore(d, now)
  }

  predicate IsUpcoming(d: Deadline, now: int)
  {
    IsOpen(d) && !DueBefore(d, now)
  }

  predicate IsThisWeek(d: Deadline, now: int)
  {
    IsOpen(d) && DueInWeek(d, now)
  }

  function OverdueTest(now: int): Deadline -> bool
  {
    d => IsOverdue(d, now)
  }

  function UpcomingTest(now: int): Deadline -> bool
  {
    d => IsUpcoming(d, now)
  }

  function ThisWeekTest(now: int): Deadline -> bool
  {
    d => IsThisWeek(d, now)
  }

  /** `overdueDeadlines`, in list order. */
  function Overdue(ds: seq<Deadline>, now: int): (r: seq<Deadline>)
    ensures forall d :: d in r <==> d in ds && IsOverdue(d, now)
    ensures forall d :: multiset(r)[d] == if IsOverdue(d, now) then multiset(ds)[d] else 0
    ensures IsSubsequence(r, ds)
  {
    FilterIsSubsequence(ds, OverdueTest(now));
    FilterMultiplicity(ds, OverdueTest(now));
    Filter(ds, OverdueTest(now))
  }

  /** `upcomingDeadlines`, sorted by due date (stable). */
  function Upcoming(ds: seq<Deadline>, now: int): (r: seq<Deadline>)
    ensures forall d :: d in r <==> d in ds && IsUpcoming(d, now)
    ensures multiset(r) == multiset(Filter(ds, UpcomingTest(now)))
    ensures Sorted(r, DueTime)
  {
    InsertionSortSorted(Filter(ds, UpcomingTest(now)), DueTime);
    assert forall d :: d in InsertionSort(Filter(ds, UpcomingTest(now)), DueTime) <==>
      d in multiset(Filter(ds, UpcomingTest(now)));
    InsertionSort(Filter(ds, UpcomingTest(now)), DueTime)
  }

  /** `thisWeekDeadlines`, in list order. */
  function ThisWeek(ds: seq<Deadline>, now: int): (r: seq<Deadline>)
    ensures forall d :: d in r <==> d in ds && IsThisWeek(d, now)
    ensures forall d :: multiset(r)[d] == if IsThisWeek(d, now) then multiset(ds)[d] else 0
    ensures IsSubsequence(r, ds)
  {
    FilterIsSubsequence(ds, ThisWeekTest(now));
    FilterMultiplicity(ds, ThisWeekTest(now));
    Filter(ds, ThisWeekTest(now))
  }

  /** The dashboard timeline: overdue sorted by due date, then upcoming. */
  function Timeline(ds: seq<Deadline>, now: int): (r: seq<Deadline>)
    ensures forall d :: d in r <==> d in ds && IsOpen(d)
  {
    assert forall d :: d in InsertionSort(Overdue(ds, now), DueTime) <==> d in multiset(Overdue(ds, now));
    InsertionSort(Overdue(ds, now), DueTime) + Upcoming(ds, now)
  }

  // ---------------------------------------------------------------------------
  // Membership

  lemma InSortedIffIn<T>(s: seq<T>, key: T -> int, x: T)
    ensures x in InsertionSort(s, key) <==> x in s
  {
    assert x in multiset(InsertionSort(s, key)) <==> x in multiset(s);
  }

  /** Which buckets a deadline of the list is in: a complete one is in none;
      an open one is overdue exactly when it is not upcoming, by its due
      midnight against `now`; this-week is decided on its own. */
  lemma BucketMembership(ds: seq<Deadline>, now: int, d: Deadline)
    requires d in ds
    ensures d in Overdue(ds, now) <==> IsOpen(d) && DueTime(d) < now
    ensures d in Upcoming(ds, now) <==> IsOpen(d) && now <= DueTime(d)
    ensures d in ThisWeek(ds, now) <==> IsOpen(d) && WeekStart(now) <= DueTime(d) <= WeekEnd(now)
    ensures !IsOpen(d) ==> d !in Overdue(ds, now) && d !in Upcoming(ds, now) && d !in ThisWeek(ds, now)
    ensures IsOpen(d) ==> (d in Overdue(ds, now) <==> d !in Upcoming(ds, now))
  {
    InSortedIffIn(Filter(ds, UpcomingTest(now)), DueTime, d);
  }

  /** Only deadlines of the list appear in a bucket. */
  lemma BucketsFromList(ds: seq<Deadline>, now: int, d: Deadline)
    requires d in Overdue(ds, now) || d in Upcoming(ds, now) || d in ThisWeek(ds, now)
    ensures d in ds && IsOpen(d)
  {
    InSortedIffIn(Filter(ds, UpcomingTest(now)), DueTime, d);
  }

  /** The week is the Monday-to-Sunday week of `now`'s day, by day numbers. */
  lemma ThisWeekByDays(ds: seq<Deadline>, now: int, d: Deadline)
    ensures d in ThisWeek(ds, now) <==>
      d in ds && IsOpen(d) &&
      StartOfWeekDay(DayOf(now)) <= d.dueDate <= StartOfWeekDay(DayOf(now)) + 6
  {
  }

  /** A deadline due on `now`'s own day is already overdue unless `now` is
      exactly midnight: its due instant is that midnight. */
  lemma DueTodayIsOverdue(ds: seq<Deadline>, now: int, d: Deadline)
    requires d in ds && IsOpen(d) && d.dueDate == DayOf(now)
    ensures d in Overdue(ds, now) <==> now != Midnight(DayOf(now))
  {
    BucketMembership(ds, now, d);
  }

  /** From the next day on, an open deadline is upcoming. */
  lemma DueLaterIsUpcoming(ds: seq<Deadline>, now: int, d: Deadline)
    requires d in ds && IsOpen(d) && d.dueDate > DayOf(now)
    ensures d in Upcoming(ds, now) && d !in Overdue(ds, now)
  {
    BucketMembership(ds, now, d);
  }

  /** Three deadlines due two days ago, today and in five days (the last one
      complete): after midnight both open ones are overdue; only at midnight
      itself is the one due today upcoming. */
  lemma ThreeDeadlinesExample(d0: Deadline, d1: Deadline, d2: Deadline, now: int)
    requires d0.status == Todo && d1.status == Todo && d2.status == Complete
    requires d0.dueDate == DayOf(now) - 2 && d1.dueDate == DayOf(now) && d2.dueDate == DayOf(now) + 5
    ensures now != Midnight(DayOf(now)) ==>
      Overdue([d0, d1, d2], now) == [d0, d1] && Upcoming([d0, d1, d2], now) == []
    ensures now == Midnight(DayOf(now)) ==>
      Overdue([d0, d1, d2], now) == [d0] && Upcoming([d0, d1, d2], now) == [d1]
  {
    ThreeOverdue(d0, d1, d2, now);
    ThreeUpcoming(d0, d1, d2, now);
  }

  lemma ThreeOverdue(d0: Deadline, d1: Deadline, d2: Deadline, now: int)
    requires d0.status == Todo && d1.status == Todo && d2.status == Complete
    requires d0.dueDate == DayOf(now) - 2 && d1.dueDate == DayOf(now)
    ensures Overdue([d0, d1, d2], now) == if now != Midnight(DayOf(now)) then [d0, d1] else [d0]
  {
    assert Midnight(DayOf(now)) <= now;
    var p := OverdueTest(now);
    assert p(d0) && !p(d2);
    assert p(d1) <==> now != Midnight(DayOf(now));
    FilterThree(d0, d1, d2, p);
    assert Overdue([d0, d1, d2], now) == Filter([d0, d1, d2], p);
  }

  lemma ThreeUpcoming(d0: Deadline, d1: Deadline, d2: Deadline, now: int)
    requires d0.status == Todo && d1.status == Todo && d2.status == Complete
    requires d0.dueDate == DayOf(now) - 2 && d1.dueDate == DayOf(now)
    ensures Upcoming([d0, d1, d2], now) == if now != Midnight(DayOf(now)) then [] else [d1]
  {
    assert Midnight(DayOf(now)) <= now;
    FilterThree(d0, d1, d2, UpcomingTest(now));
    assert InsertionSort([d1], DueTime) == [d1] by {
      assert [d1][..0] == [];
    }
  }

  // ---------------------------------------------------------------------------
  // Order

  /** `upcoming` is ascending by due date. */
  lemma UpcomingSorted(ds: seq<Deadline>, now: int)
    ensures Sorted(Upcoming(ds, now), DueTime)
    ensures forall i, j :: 0 <= i < j < |Upcoming(ds, now)| ==>
      Upcoming(ds, now)[i].dueDate <= Upcoming(ds, now)[j].dueDate
  {
    var u := Upcoming(ds, now);
    forall i, j | 0 <= i < j < |u| ensures u[i].dueDate <= u[j].dueDate {
      MidnightOrder(u[j].dueDate, u[i].dueDate);
    }
  }

  /** Two sorted runs separated by a bound concatenate to a sorted sequence. */
  lemma ConcatSorted<T>(lo: seq<T>, hi: seq<T>, key: T -> int, bound: int)
    requires Sorted(lo, key) && Sorted(hi, key)
    requires forall i :: 0 <= i < |lo| ==> key(lo[i]) < bound
    requires forall j :: 0 <= j < |hi| ==> bound <= key(hi[j])
    ensures Sorted(lo + hi, key)
  {
    var t := lo + hi;
    forall i, j | 0 <= i < j < |t| ensures key(t[i]) <= key(t[j]) {
      if j < |lo| {
        assert t[i] == lo[i] && t[j] == lo[j];
      } else if i >= |lo| {
        assert t[i] == hi[i - |lo|] && t[j] == hi[j - |lo|];
      } else {
        assert t[i] == lo[i] && t[j] == hi[j - |lo|];
      }
    }
  }

  /** The timeline is ascending by due date. */
  lemma TimelineSorted(ds: seq<Deadline>, now: int)
    ensures Sorted(Timeline(ds, now), DueTime)
  {
    var over := InsertionSort(Overdue(ds, now), DueTime);
    var up := Upcoming(ds, now);
    InsertionSortSorted(Overdue(ds, now), DueTime);
    UpcomingSorted(ds, now);
    forall i | 0 <= i < |over| ensures DueTime(over[i]) < now {
      InSortedIffIn(Overdue(ds, now), DueTime, over[i]);
    }
    forall j | 0 <= j < |up| ensures now <= DueTime(up[j]) {
      InSortedIffIn(Filter(ds, UpcomingTest(now)), DueTime, up[j]);
    }
    ConcatSorted(over, up, DueTime, now);
  }

  function BeforeTest(now: int): Deadline -> bool
  {
    d => DueBefore(d, now)
  }

  function NotBeforeTest(now: int): Deadline -> bool
  {
    d => !DueBefore(d, now)
  }

  /** The timeline holds exactly the open deadlines, each as often as in the
      list. */
  lemma TimelinePermutation(ds: seq<Deadline>, now: int)
    ensures multiset(Timeline(ds, now)) == multiset(Filter(ds, IsOpen))
  {
    var open := Filter(ds, IsOpen);
    FilterTwice(ds, IsOpen, BeforeTest(now), OverdueTest(now));
    FilterTwice(ds, IsOpen, NotBeforeTest(now), UpcomingTest(now));
    FilterSplitsMultiset(open, BeforeTest(now), NotBeforeTest(now));
  }

  // ---------------------------------------------------------------------------
  // Quick stats of the selected client

  datatype Stats = Stats(total: nat, active: nat, completed: nat, overdue: nat)

  /** `clientDeadlines`: the selected client's deadlines in list order, and
      none when no client is selected (`null` or an empty id). */
  function ClientDeadlines(ds: seq<Deadline>, selected: Option<string>): (r: seq<Deadline>)
    ensures Filled(selected) ==> forall d :: d in r <==> d in ds && d.clientId == selected.value
    ensures Filled(selected) ==> forall d ::
      multiset(r)[d] == if d.clientId == selected.value then multiset(ds)[d] else 0
    ensures !Filled(selected) ==> r == []
    ensures IsSubsequence(r, ds)
  {
    if Filled(selected) then DeadlinesOf(ds, selected.value) else []
  }

  /** The four numbers of the client detail's quick stats: active and
      completed add up to the total, and overdue ones are active. */
  function ClientStats(ds: seq<Deadline>, selected: Option<string>, now: int): (st: Stats)
    ensures st.total == |ClientDeadlines(ds, selected)|
    ensures st.active == |Filter(ClientDeadlines(ds, selected), IsOpen)|
    ensures st.overdue == |Overdue(ClientDeadlines(ds, selected), now)|
    ensures st.active + st.completed == st.total
    ensures st.overdue <= st.active
  {
    var mine := ClientDeadlines(ds, selected);
    var done := (d: Deadline) => !IsOpen(d);
    FilterSplitsLength(mine, IsOpen, done);
    FilterTwice(mine, IsOpen, BeforeTest(now), OverdueTest(now));
    Stats(|mine|, |Filter(mine, IsOpen)|, |Filter(mine, done)|, |Overdue(mine, now)|)
  }
}
