/**
 * The client-side filter and sort over a search's listings (lib/filters.ts):
 * an optional posting-date window, then a sort newest first or by company,
 * and the list of boards the listings came from.
 */
module Filters {
  import opened Basics
  import opened Host
  import opened Jobs
  import opened DateUtils
  import opened Sorting

  datatype ScopeChoice = GlobalOnly | AllScopes

  /** The date-range choices "7" and "14". */
  datatype DateRange = Last7 | Last14

  datatype SortKey = ByDate | ByCompany

  /** The filter state the page keeps. sourceBoard None and dateRange None
      mean "all boards" and "any date". */
  datatype FilterState = FilterState(
    remoteScope: ScopeChoice,
    sourceBoard: Option<string>,
    dateRange: Option<DateRange>,
    sortBy: SortKey)

  const DEFAULT_FILTERS: FilterState := FilterState(GlobalOnly, None, None, ByDate)

  /** `parseInt(filters.dateRange, 10)`. */
  function Days(r: DateRange): (d: int)
    ensures d == 7 || d == 14
  {
    match r
    case Last7 => 7
    case Last14 => 14
  }

  /** `new Date(j.datePosted)`: the posting day "YYYY-MM-DD" read as UTC
      midnight of that day. */
  function DayStart(j: JobListing): Date {
    TimeClip(j.datePosted * MS_PER_DAY)
  }

  /** A posting day a Date can hold, as every day taken from a valid Date is. */
  predicate ValidDay(j: JobListing) {
    DayStart(j).At?
  }

  /** `filtered.filter((j) => new Date(j.datePosted) >= cutoff)`. */
  function KeepFrom(jobs: seq<JobListing>, cutoff: Date): (r: seq<JobListing>)
    ensures forall j :: multiset(r)[j] == if AtOrAfter(DayStart(j), cutoff) then multiset(jobs)[j] else 0
  {
    if jobs == [] then []
    else
      assert jobs == [jobs[0]] + jobs[1..];
      (if AtOrAfter(DayStart(jobs[0]), cutoff) then [jobs[0]] else []) + KeepFrom(jobs[1..], cutoff)
  }

  /** The date comparator `new Date(b.datePosted).getTime() -
      new Date(a.datePosted).getTime()`; a NaN difference, from an invalid
      date, counts as 0, as it does for Array.prototype.sort. */
  function DateCompare(a: JobListing, b: JobListing): int {
    match (DayStart(a), DayStart(b))
    case (At(x), At(y)) => y - x
    case _ => 0
  }

  /** a may stay before b in the date sort. */
  predicate NewestFirst(a: JobListing, b: JobListing) {
    DateCompare(a, b) <= 0
  }

  /** String.prototype.localeCompare, taken from the host: negative, zero or
      positive as the first string sorts before, with or after the second. */
  type Collation = (string, string) -> int

  /** A collation that orders every pair of strings and is transitive. */
  ghost predicate ValidCollation(collate: Collation) {
    && (forall s, t :: collate(s, t) <= 0 || collate(t, s) <= 0)
    && (forall s, t, u :: collate(s, t) <= 0 && collate(t, u) <= 0 ==> collate(s, u) <= 0)
  }

  /** a may stay before b in the company sort, `a.company.localeCompare(b.company)`. */
  predicate CompanyOrder(collate: Collation, a: JobListing, b: JobListing) {
    collate(a.company, b.company) <= 0
  }

  /** The listings the date window keeps: all of them without a window. */
  function InDateRange(jobs: seq<JobListing>, range: Option<DateRange>, now: Instant): seq<JobListing> {
    match range
    case None => jobs
    case Some(r) => KeepFrom(jobs, TimeClip(now - Days(r) * MS_PER_DAY))
  }

  /** The comparator a sort key selects. */
  function Comparator(key: SortKey, collate: Collation): (JobListing, JobListing) -> bool {
    match key
    case ByDate => NewestFirst
    case ByCompany => (a, b) => CompanyOrder(collate, a, b)
  }

  /** applyFilters: the date window, then the stable sort by the chosen key. */
  function Filtered(jobs: seq<JobListing>, filters: FilterState, now: Instant, collate: Collation): seq<JobListing> {
    SortBy(InDateRange(jobs, filters.dateRange, now), Comparator(filters.sortBy, collate))
  }

  /** applyFilters as the source runs it: a copy of the listings, narrowed
      to those posted at or after a cutoff Date moved back the chosen number
      of days, then sorted. The listings passed in are a value and stay as
      they were. */
  method ApplyFilters(jobs: seq<JobListing>, filters: FilterState, c: Clock, collate: Collation)
    returns (filtered: seq<JobListing>)
    ensures filtered == Filtered(jobs, filters, c.now, collate)
  {
    filtered := jobs;
    if filters.dateRange.Some? {
      filtered := KeepRecent(filtered, filters.dateRange.value, c);
    }
    if filters.sortBy == ByDate {
      filtered := SortBy(filtered, NewestFirst);
    } else {
      filtered := SortBy(filtered, (a, b) => CompanyOrder(collate, a, b));
    }
  }

  /** The date step of applyFilters: the cutoff is a Date at the current
      instant moved back the window's number of days. */
  method KeepRecent(jobs: seq<JobListing>, range: DateRange, c: Clock) returns (kept: seq<JobListing>)
    ensures kept == InDateRange(jobs, Some(range), c.now)
  {
    var days := Days(range);
    assert Before(c, c.now, Day, Some(days)) == TimeClip(c.now - days * MS_PER_DAY);
    var cutoff := new JsDate(c.now);
    cutoff.MoveBack(c, Day, Some(days));
    kept := KeepFrom(jobs, cutoff.time);
  }

  /** With a window of d days, a listing is kept exactly when its posting
      day is in the recency window of d days, and each kept listing as often
      as it was given; without a window every listing is kept. */
  lemma DateWindow(jobs: seq<JobListing>, filters: FilterState, now: Instant, collate: Collation)
    ensures filters.dateRange.None? ==> multiset(Filtered(jobs, filters, now, collate)) == multiset(jobs)
    ensures filters.dateRange.Some? ==> forall j ::
      multiset(Filtered(jobs, filters, now, collate))[j] ==
        if WithinRecencyWindow(DayStart(j), now, Days(filters.dateRange.value)) then multiset(jobs)[j] else 0
  {
  }

  /** The same in milliseconds: a listing is kept exactly when the midnight
      starting its posting day is at or after now minus the window. */
  lemma WindowByDay(j: JobListing, now: Instant, days: int)
    requires ValidDay(j) && -MAX_TIME <= now - days * MS_PER_DAY
    ensures WithinRecencyWindow(DayStart(j), now, days) <==> j.datePosted * MS_PER_DAY >= now - days * MS_PER_DAY
  {
    RecencyBoundary(DayStart(j), now, days);
  }

  /** Between listings with valid posting days the date comparator orders by
      posting day, later first. */
  lemma NewestFirstByDay(a: JobListing, b: JobListing)
    requires ValidDay(a) && ValidDay(b)
    ensures NewestFirst(a, b) <==> a.datePosted >= b.datePosted
  {
  }

  /** The date comparator is a total preorder on listings with valid posting days. */
  lemma NewestFirstPreorder(jobs: seq<JobListing>)
    requires forall j :: j in jobs ==> ValidDay(j)
    ensures TotalPreorderOn(NewestFirst, jobs)
  {
  }

  /** A valid collation makes the company comparator a total preorder. */
  lemma CompanyOrderPreorder(collate: Collation, jobs: seq<JobListing>)
    requires ValidCollation(collate)
    ensures TotalPreorderOn((a, b) => CompanyOrder(collate, a, b), jobs)
  {
  }

  /** Sorting by date puts the listings newest first; sorting by company
      puts them in collation order of their company names. */
  lemma FilteredSorted(jobs: seq<JobListing>, filters: FilterState, now: Instant, collate: Collation)
    requires filters.sortBy == ByDate ==> forall j :: j in jobs ==> ValidDay(j)
    requires filters.sortBy == ByCompany ==> ValidCollation(collate)
    ensures filters.sortBy == ByDate ==> forall i, k ::
      0 <= i < k < |Filtered(jobs, filters, now, collate)| ==>
        Filtered(jobs, filters, now, collate)[i].datePosted >= Filtered(jobs, filters, now, collate)[k].datePosted
    ensures filters.sortBy == ByCompany ==> forall i, k ::
      0 <= i < k < |Filtered(jobs, filters, now, collate)| ==>
        collate(Filtered(jobs, filters, now, collate)[i].company, Filtered(jobs, filters, now, collate)[k].company) <= 0
  {
    var kept := InDateRange(jobs, filters.dateRange, now);
    var le := Comparator(filters.sortBy, collate);
    assert multiset(kept) <= multiset(jobs);
    if filters.sortBy == ByDate {
      forall j | j in kept ensures ValidDay(j) {
        assert j in multiset(kept);
      }
      NewestFirstSorted(kept);
    } else {
      CompanyOrderPreorder(collate, kept);
      SortBySorted(kept, le);
    }
  }

  /** Listings with valid posting days sorted newest first are in
      non-increasing order of posting day. */
  lemma NewestFirstSorted(jobs: seq<JobListing>)
    requires forall j :: j in jobs ==> ValidDay(j)
    ensures forall i, k :: 0 <= i < k < |SortBy(jobs, NewestFirst)| ==>
              SortBy(jobs, NewestFirst)[i].datePosted >= SortBy(jobs, NewestFirst)[k].datePosted
  {
    var r := SortBy(jobs, NewestFirst);
    NewestFirstPreorder(jobs);
    SortBySorted(jobs, NewestFirst);
    forall i, k | 0 <= i < k < |r| ensures r[i].datePosted >= r[k].datePosted {
      assert r[i] in multiset(jobs) && r[k] in multiset(jobs);
      NewestFirstByDay(r[i], r[k]);
    }
  }

  /** The listings of jobs posted on the given day, in their order in jobs. */
  function PostedOn(jobs: seq<JobListing>, day: int): seq<JobListing> {
    if jobs == [] then []
    else
      var n := |jobs| - 1;
      PostedOn(jobs[..n], day) + (if jobs[n].datePosted == day then [jobs[n]] else [])
  }

  /** On valid days, the listings the date comparator ties with c are those
      posted on c's day. */
  lemma {:induction false} TiesAreSameDay(jobs: seq<JobListing>, c: JobListing)
    requires ValidDay(c) && forall j :: j in jobs ==> ValidDay(j)
    ensures Ties(jobs, c, NewestFirst) == PostedOn(jobs, c.datePosted)
  {
    if jobs != [] {
      var n := |jobs| - 1;
      assert jobs[n] in jobs;
      assert forall j :: j in jobs[..n] ==> j in jobs;
      TiesAreSameDay(jobs[..n], c);
      NewestFirstByDay(jobs[n], c);
      NewestFirstByDay(c, jobs[n]);
    }
  }

  /** Sorting newest first keeps listings posted on the same day in the
      order they came in. */
  lemma SameDayKeepsOrder(jobs: seq<JobListing>, day: int)
    requires forall j :: j in jobs ==> ValidDay(j)
    ensures PostedOn(SortBy(jobs, NewestFirst), day) == PostedOn(jobs, day)
  {
    var r := SortBy(jobs, NewestFirst);
    if c :| c in jobs && c.datePosted == day {
      NewestFirstPreorder(jobs);
      SortByStable(jobs, NewestFirst, c);
      forall j | j in r ensures ValidDay(j) {
        assert j in multiset(jobs);
      }
      TiesAreSameDay(jobs, c);
      TiesAreSameDay(r, c);
    } else {
      NoneOnDay(jobs, day);
      forall j | j in r ensures j.datePosted != day {
        assert j in multiset(jobs);
      }
      NoneOnDay(r, day);
    }
  }

  lemma {:induction false} NoneOnDay(jobs: seq<JobListing>, day: int)
    requires forall j :: j in jobs ==> j.datePosted != day
    ensures PostedOn(jobs, day) == []
  {
    if jobs != [] {
      var n := |jobs| - 1;
      assert jobs[n] in jobs;
      assert forall j :: j in jobs[..n] ==> j in jobs;
      NoneOnDay(jobs[..n], day);
    }
  }

  /** The filter never consults the scope or board choice. */
  lemma ScopeAndBoardIgnored(jobs: seq<JobListing>, filters: FilterState, now: Instant, collate: Collation,
                             scope: ScopeChoice, board: Option<string>)
    ensures Filtered(jobs, filters.(remoteScope := scope, sourceBoard := board), now, collate) ==
            Filtered(jobs, filters, now, collate)
  {
  }

  /** The default filters keep every listing and sort newest first. */
  lemma DefaultKeepsAll(jobs: seq<JobListing>, now: Instant, collate: Collation)
    ensures multiset(Filtered(jobs, DEFAULT_FILTERS, now, collate)) == multiset(jobs)
    ensures Filtered(jobs, DEFAULT_FILTERS, now, collate) == SortBy(jobs, NewestFirst)
  {
  }

  // ---------------------------------------------------------------------------
  // Available boards

  /** `s <= t` for strings, code unit by code unit, as the default sort compares them. */
  predicate CodeUnitLe(s: string, t: string) {
    s == [] || (t != [] && (s[0] < t[0] || (s[0] == t[0] && CodeUnitLe(s[1..], t[1..]))))
  }

  lemma {:induction false} CodeUnitTotal(s: string, t: string)
    ensures CodeUnitLe(s, t) || CodeUnitLe(t, s)
  {
    if s != [] && t != [] && s[0] == t[0] {
      CodeUnitTotal(s[1..], t[1..]);
    }
  }

  lemma {:induction false} CodeUnitTransitive(s: string, t: string, u: string)
    requires CodeUnitLe(s, t) && CodeUnitLe(t, u)
    ensures CodeUnitLe(s, u)
  {
    if s != [] && t != [] && u != [] && s[0] == t[0] && t[0] == u[0] {
      CodeUnitTransitive(s[1..], t[1..], u[1..]);
    }
  }

  lemma {:induction false} CodeUnitAntisymmetric(s: string, t: string)
    requires CodeUnitLe(s, t) && CodeUnitLe(t, s)
    ensures s == t
  {
    if s != [] && t != [] {
      CodeUnitAntisymmetric(s[1..], t[1..]);
      assert s == [s[0]] + s[1..] && t == [t[0]] + t[1..];
    }
  }

  lemma CodeUnitPreorder(names: seq<string>)
    ensures TotalPreorderOn(CodeUnitLe, names)
  {
    forall s, t | s in names && t in names ensures CodeUnitLe(s, t) || CodeUnitLe(t, s) {
      CodeUnitTotal(s, t);
    }
    forall s, t, u | s in names && t in names && u in names && CodeUnitLe(s, t) && CodeUnitLe(t, u)
      ensures CodeUnitLe(s, u)
    {
      CodeUnitTransitive(s, t, u);
    }
  }

  /** `[...new Set(names)]`: each name once, at its first occurrence. */
  function Distinct(names: seq<string>): (r: seq<string>)
    ensures forall x :: x in r <==> x in names
    ensures forall i, k :: 0 <= i < k < |r| ==> r[i] != r[k]
  {
    if names == [] then []
    else
      var n := |names| - 1;
      var d := Distinct(names[..n]);
      assert names == names[..n] + [names[n]];
      if names[n] in d then d else d + [names[n]]
  }

  /** `jobs.map((j) => j.sourceBoard)`. */
  function Boards(jobs: seq<JobListing>): (r: seq<string>)
    ensures |r| == |jobs| && forall i :: 0 <= i < |jobs| ==> r[i] == jobs[i].sourceBoard
  {
    seq(|jobs|, i requires 0 <= i < |jobs| => jobs[i].sourceBoard)
  }

  /** getAvailableBoards. */
  function AvailableBoards(jobs: seq<JobListing>): seq<string> {
    SortBy(Distinct(Boards(jobs)), CodeUnitLe)
  }

  /** Each board some listing came from appears exactly once, no other
      name appears, and the names are in strictly ascending order. */
  lemma AvailableBoardsSpec(jobs: seq<JobListing>)
    ensures forall b :: b in AvailableBoards(jobs) <==> exists j :: j in jobs && j.sourceBoard == b
    ensures forall i, k :: 0 <= i < k < |AvailableBoards(jobs)| ==>
      CodeUnitLe(AvailableBoards(jobs)[i], AvailableBoards(jobs)[k]) &&
      AvailableBoards(jobs)[i] != AvailableBoards(jobs)[k]
  {
    var names := Boards(jobs);
    var d := Distinct(names);
    var r := AvailableBoards(jobs);
    assert multiset(r) == multiset(d);
    forall b ensures b in r <==> exists j :: j in jobs && j.sourceBoard == b {
      assert b in r <==> b in multiset(d);
      if b in d {
        assert b in names;
        var i :| 0 <= i < |names| && names[i] == b;
        assert jobs[i] in jobs;
      }
      if exists j :: j in jobs && j.sourceBoard == b {
        var j :| j in jobs && j.sourceBoard == b;
        var i :| 0 <= i < |jobs| && jobs[i] == j;
        assert names[i] == b;
      }
    }
    CodeUnitPreorder(d);
    SortBySorted(d, CodeUnitLe);
    forall i, k | 0 <= i < k < |r| ensures r[i] != r[k] {
      if r[i] == r[k] {
        DistinctNoRepeat(d, r, i, k);
      }
    }
  }

  /** A permutation of a list without repeats has none either. */
  lemma DistinctNoRepeat(d: seq<string>, r: seq<string>, i: int, k: int)
    requires forall a, b :: 0 <= a < b < |d| ==> d[a] != d[b]
    requires multiset(r) == multiset(d)
    requires 0 <= i < k < |r|
    ensures r[i] != r[k]
  {
    if r[i] == r[k] {
      assert r == r[..i] + [r[i]] + r[i + 1..k] + [r[k]] + r[k + 1..];
      assert multiset(r)[r[i]] >= 2;
      NoRepeatCount(d, r[i]);
      assert false;
    }
  }

  /** An element of a list without repeats occurs in it at most once. */
  lemma {:induction false} NoRepeatCount(d: seq<string>, x: string)
    requires forall a, b :: 0 <= a < b < |d| ==> d[a] != d[b]
    ensures multiset(d)[x] <= 1
  {
    if d != [] {
      var n := |d| - 1;
      assert d == d[..n] + [d[n]];
      NoRepeatCount(d[..n], x);
      if d[n] == x {
        assert x !in d[..n];
        assert multiset(d[..n])[x] == 0;
      }
    }
  }
}
