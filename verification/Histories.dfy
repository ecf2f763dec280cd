/** One history page out of two lists: the jobs in post-processing and the jobs in the database. */
module Histories {

  datatype Id = Id(n: int)

  /** A job in post-processing, or one of the database. */
  datatype Entry = Active(id: Id) | Stored(id: Id)

  function Min(a: nat, b: nat): nat {
    if a <= b then a else b
  }

  /** A slice as Python takes it: what lies beyond the end is left out. */
  function Slice<T>(s: seq<T>, start: nat, limit: nat): seq<T> {
    s[Min(start, |s|)..Min(start + limit, |s|)]
  }

  function Reversed<T>(s: seq<T>): (r: seq<T>)
    ensures |r| == |s| && forall i :: 0 <= i < |s| ==> r[i] == s[|s| - 1 - i]
  {
    if s == [] then [] else Reversed(s[1..]) + [s[0]]
  }

  /** `fetch_history` with its filters applied: the database's rows, newest first; no limit means all. */
  function Fetched(stored: seq<Entry>, start: nat, limit: nat): seq<Entry> {
    Slice(stored, start, if limit == 0 then |stored| else limit)
  }

  predicate HasId(items: seq<Entry>, id: Id) {
    exists i :: 0 <= i < |items| && items[i].id == id
  }

  /** `add_active_history`: a job that is already listed is skipped. */
  function NotListed(jobs: seq<Entry>, items: seq<Entry>): seq<Entry> {
    if jobs == [] then []
    else (if HasId(items, jobs[0].id) then [] else [jobs[0]]) + NotListed(jobs[1..], items)
  }

  /** The jobs in post-processing that a page asks for. */
  function ActiveSlice(active: seq<Entry>, start: nat, limit: nat): seq<Entry> {
    if start > |active| then [] else if limit > 0 then Slice(active, start, limit) else active[start..]
  }

  /** The rows of the database that a page asks for. */
  function StoredSlice(active: seq<Entry>, stored: seq<Entry>, start: nat, limit: nat): seq<Entry> {
    var taken := |ActiveSlice(active, start, limit)|;
    var left := if start > |active| then limit else if limit >= taken then limit - taken else 0;
    if left == 0 then [] else Fetched(stored, if start >= |active| then start - |active| else 0, left)
  }

  /** The items of `build_history`; an archive page has no jobs in post-processing. */
  function Page(active: seq<Entry>, stored: seq<Entry>, start: nat, limit: nat): seq<Entry> {
    var rows := StoredSlice(active, stored, start, limit);
    Reversed(NotListed(ActiveSlice(active, start, limit), rows)) + rows
  }

  // ------------------------------------------------------------------------------------------ the program's own form

  method Reverse(items: seq<Entry>) returns (r: seq<Entry>)
    ensures r == Reversed(items)
  {
    r := [];
    var i := |items|;
    while i > 0
      invariant 0 <= i <= |items| && r == Reversed(items[i..])
    {
      i := i - 1;
      assert items[i..][1..] == items[i + 1..];
      r := r + [items[i]];
    }
  }

  method AddActiveHistory(jobs: seq<Entry>, items: seq<Entry>) returns (r: seq<Entry>)
    ensures r == items + NotListed(jobs, items)
  {
    r := items;
    var i := 0;
    assert jobs[i..] == jobs;
    while i < |jobs|
      invariant i <= |jobs| && r + NotListed(jobs[i..], items) == items + NotListed(jobs, items)
    {
      assert jobs[i..][1..] == jobs[i + 1..];
      if !HasId(items, jobs[i].id) {
        assert r + ([jobs[i]] + NotListed(jobs[i + 1..], items)) == r + [jobs[i]] + NotListed(jobs[i + 1..], items);
        r := r + [jobs[i]];
      }
      i := i + 1;
    }
  }

  /** `build_history`; `queue` is what post-processing holds and `stored` what the database holds, both filtered. */
  method BuildHistory(queue: seq<Entry>, stored: seq<Entry>, start: nat, limit: nat, archive: bool)
    returns (items: seq<Entry>, queueSize: nat, total: nat)
    ensures items == Page(if archive then [] else queue, stored, start, limit)
    ensures queueSize == (if archive then 0 else |queue|) && total == queueSize + |stored|
  {
    var jobs, dbStart, dbLimit := [], start, limit;
    queueSize := 0;
    if !archive {
      jobs, queueSize := queue, |queue|;
      if start > queueSize {
        jobs := [];
      } else {
        if limit > 0 {
          jobs := Slice(jobs, start, limit);
        } else {
          jobs := jobs[start..];
        }
        dbLimit := if limit >= |jobs| then limit - |jobs| else 0;
      }
      dbStart := if start >= queueSize then start - queueSize else 0;
    } else {
      ArchivePage(stored, start, limit);
    }
    ghost var rows := if dbLimit == 0 then [] else Fetched(stored, dbStart, dbLimit);
    if dbLimit == 0 {
      items := [];
    } else {
      items := Fetched(stored, dbStart, dbLimit);
    }
    items := Reverse(items);
    items := AddActiveHistory(jobs, items);
    items := Reverse(items);
    ReversedConcat(Reversed(rows), NotListed(jobs, Reversed(rows)));
    ReversedTwice(rows);
    NotListedReversed(jobs, rows);
    total := queueSize + |stored|;
  }

  // ------------------------------------------------------------------------------------------------------- lemmas

  lemma ArchivePage(stored: seq<Entry>, start: nat, limit: nat)
    ensures ActiveSlice([], start, limit) == []
    ensures StoredSlice([], stored, start, limit) == if limit == 0 then [] else Fetched(stored, start, limit)
  {
  }

  lemma ReversedConcat<T>(a: seq<T>, b: seq<T>)
    ensures Reversed(a + b) == Reversed(b) + Reversed(a)
  {
  }

  lemma ReversedTwice<T>(s: seq<T>)
    ensures Reversed(Reversed(s)) == s
  {
  }

  /** The order of the listed items does not matter. */
  lemma {:induction false} NotListedReversed(jobs: seq<Entry>, items: seq<Entry>)
    ensures NotListed(jobs, Reversed(items)) == NotListed(jobs, items)
  {
    if jobs != [] {
      var id := jobs[0].id;
      if HasId(items, id) {
        var i :| 0 <= i < |items| && items[i].id == id;
        assert Reversed(items)[|items| - 1 - i].id == id;
      }
      NotListedReversed(jobs[1..], items);
    }
  }

  lemma {:induction false} ReversedKeeps<T>(s: seq<T>)
    ensures multiset(Reversed(s)) == multiset(s)
  {
    if s != [] {
      assert s == [s[0]] + s[1..];
      ReversedKeeps(s[1..]);
    }
  }

  /** None of these jobs is listed. */
  predicate NoneListed(jobs: seq<Entry>, items: seq<Entry>) {
    forall i :: 0 <= i < |jobs| ==> !HasId(items, jobs[i].id)
  }

  /** All jobs are kept exactly when none is listed. */
  lemma {:induction false} KeptExactly(jobs: seq<Entry>, items: seq<Entry>)
    ensures |NotListed(jobs, items)| <= |jobs|
    ensures NoneListed(jobs, items) <==> NotListed(jobs, items) == jobs
    ensures NoneListed(jobs, items) <==> |NotListed(jobs, items)| == |jobs|
  {
    if jobs != [] {
      KeptExactly(jobs[1..], items);
      assert jobs == [jobs[0]] + jobs[1..];
      assert NoneListed(jobs, items) <==> !HasId(items, jobs[0].id) && NoneListed(jobs[1..], items) by {
        assert forall i :: 0 <= i < |jobs[1..]| ==> jobs[1..][i] == jobs[i + 1];
        assert forall i :: 1 <= i < |jobs| ==> jobs[i] == jobs[1..][i - 1];
      }
    }
  }

  function Max(a: nat, b: nat): nat {
    if a <= b then b else a
  }

  /** The part of a page's slice of the two lists together that is in post-processing, and the part in the database. */
  function ActivePart(active: seq<Entry>, start: nat, limit: nat): seq<Entry> {
    active[Min(start, |active|)..Min(start + limit, |active|)]
  }

  function StoredPart(active: seq<Entry>, stored: seq<Entry>, start: nat, limit: nat): seq<Entry> {
    var skip := |active|;
    stored[Min(Max(start, skip) - skip, |stored|)..Min(Max(start + limit, skip) - skip, |stored|)]
  }

  lemma PartsAreSlices(active: seq<Entry>, stored: seq<Entry>, start: nat, limit: nat)
    requires limit > 0
    ensures ActiveSlice(active, start, limit) == ActivePart(active, start, limit)
    ensures StoredSlice(active, stored, start, limit) == StoredPart(active, stored, start, limit)
  {
  }

  lemma SliceIsParts(active: seq<Entry>, stored: seq<Entry>, start: nat, limit: nat)
    ensures Slice(active + stored, start, limit) == ActivePart(active, start, limit) + StoredPart(active, stored, start, limit)
  {
    ConcatParts(active, stored, Min(start, |active| + |stored|), Min(start + limit, |active| + |stored|));
  }

  lemma ConcatParts<T>(a: seq<T>, b: seq<T>, from: nat, to: nat)
    requires from <= to <= |a| + |b|
    ensures (a + b)[from..to] == a[Min(from, |a|)..Min(to, |a|)] + b[Max(from, |a|) - |a|..Max(to, |a|) - |a|]
  {
  }

  /** With a limit, the two slices of a page are together one slice of the two lists together. */
  lemma SlicesAreOne(active: seq<Entry>, stored: seq<Entry>, start: nat, limit: nat)
    requires limit > 0
    ensures ActiveSlice(active, start, limit) + StoredSlice(active, stored, start, limit) == Slice(active + stored, start, limit)
  {
    PartsAreSlices(active, stored, start, limit);
    SliceIsParts(active, stored, start, limit);
  }

  /** For a positive limit a page is, as a multiset, the items from start to start + limit of the two lists together,
      exactly when no job of its post-processing slice is among its rows of the database. */
  lemma PageIsSliceExactly(active: seq<Entry>, stored: seq<Entry>, start: nat, limit: nat)
    requires limit > 0
    ensures multiset(Page(active, stored, start, limit)) == multiset(Slice(active + stored, start, limit))
            <==> NoneListed(ActiveSlice(active, start, limit), StoredSlice(active, stored, start, limit))
  {
    var jobs, rows := ActiveSlice(active, start, limit), StoredSlice(active, stored, start, limit);
    var kept := NotListed(jobs, rows);
    SlicesAreOne(active, stored, start, limit);
    KeptExactly(jobs, rows);
    ReversedKeeps(kept);
    var page, slice := Page(active, stored, start, limit), Slice(active + stored, start, limit);
    assert multiset(page) == multiset(kept) + multiset(rows);
    assert multiset(slice) == multiset(jobs) + multiset(rows);
    if multiset(page) == multiset(slice) {
      assert |multiset(kept)| == |multiset(jobs)|;
    }
  }

  /** Some row of the list has this id. */
  predicate RowHas(rows: seq<Entry>, id: Id) {
    exists i :: 0 <= i < |rows| && rows[i].id == id
  }

  /** The places of the jobs in the list whose id no row has, from the last to the first. */
  predicate UnlistedFromEnd(jobs: seq<Entry>, rows: seq<Entry>, places: seq<nat>) {
    && (forall i :: 0 <= i < |places| ==> places[i] < |jobs|)
    && (forall i, j :: 0 <= i < j < |places| ==> places[j] < places[i])
    && (forall k :: 0 <= k < |jobs| ==> (k in places <==> !RowHas(rows, jobs[k].id)))
  }

  function At(jobs: seq<Entry>, places: seq<nat>): seq<Entry>
    requires forall i :: 0 <= i < |places| ==> places[i] < |jobs|
  {
    seq(|places|, i requires 0 <= i < |places| => jobs[places[i]])
  }

  function Later(places: seq<nat>): seq<nat> {
    seq(|places|, i requires 0 <= i < |places| => places[i] + 1)
  }

  /** The places of the jobs that are kept, from the last to the first. */
  function Places(jobs: seq<Entry>, rows: seq<Entry>): (places: seq<nat>)
    ensures forall i :: 0 <= i < |places| ==> places[i] < |jobs|
    decreases |jobs|
  {
    if jobs == [] then [] else Later(Places(jobs[1..], rows)) + if RowHas(rows, jobs[0].id) then [] else [0]
  }

  lemma {:induction false} KeptPlaces(jobs: seq<Entry>, rows: seq<Entry>)
    ensures UnlistedFromEnd(jobs, rows, Places(jobs, rows))
    ensures Reversed(NotListed(jobs, rows)) == At(jobs, Places(jobs, rows))
    decreases |jobs|
  {
    if jobs != [] {
      KeptPlaces(jobs[1..], rows);
      PlacesMore(jobs, rows, Places(jobs[1..], rows), Places(jobs, rows));
      KeptMore(jobs, rows);
      AtMore(jobs, rows, Places(jobs[1..], rows));
    }
  }

  lemma KeptMore(jobs: seq<Entry>, rows: seq<Entry>)
    requires jobs != []
    ensures Reversed(NotListed(jobs, rows))
            == Reversed(NotListed(jobs[1..], rows)) + if RowHas(rows, jobs[0].id) then [] else [jobs[0]]
  {
    var first := if RowHas(rows, jobs[0].id) then [] else [jobs[0]];
    assert NotListed(jobs, rows) == first + NotListed(jobs[1..], rows);
    ReversedConcat(first, NotListed(jobs[1..], rows));
    assert Reversed(first) == first;
  }

  lemma AtMore(jobs: seq<Entry>, rows: seq<Entry>, rest: seq<nat>)
    requires jobs != [] && forall i :: 0 <= i < |rest| ==> rest[i] < |jobs[1..]|
    ensures At(jobs, Later(rest)) == At(jobs[1..], rest)
    ensures At(jobs, Later(rest) + [0]) == At(jobs[1..], rest) + [jobs[0]]
    ensures Later(rest) + [] == Later(rest) && At(jobs[1..], rest) + [] == At(jobs[1..], rest)
  {
  }

  lemma PlacesMore(jobs: seq<Entry>, rows: seq<Entry>, rest: seq<nat>, places: seq<nat>)
    requires jobs != [] && UnlistedFromEnd(jobs[1..], rows, rest)
    requires places == Later(rest) + if RowHas(rows, jobs[0].id) then [] else [0]
    ensures UnlistedFromEnd(jobs, rows, places)
  {
    assert forall i :: 0 <= i < |rest| ==> places[i] == rest[i] + 1;
    forall k | 0 <= k < |jobs| ensures k in places <==> !RowHas(rows, jobs[k].id) {
      if k > 0 {
        assert jobs[k] == jobs[1..][k - 1];
        if k in places {
          var i :| 0 <= i < |places| && places[i] == k;
          assert rest[i] == k - 1;
        }
        if k - 1 in rest {
          var i :| 0 <= i < |rest| && rest[i] == k - 1;
          assert places[i] == k;
        }
      } else if !RowHas(rows, jobs[0].id) {
        assert places[|rest|] == 0;
      }
    }
  }

  /** For a positive limit and any two lists: a page is the jobs of its slice in post-processing that no row of its slice
      of the database lists, in the reverse of their order, followed by these rows. */
  lemma PageIsExactly(active: seq<Entry>, stored: seq<Entry>, start: nat, limit: nat)
    requires limit > 0
    ensures var jobs, rows := ActivePart(active, start, limit), StoredPart(active, stored, start, limit);
      exists places :: UnlistedFromEnd(jobs, rows, places) && Page(active, stored, start, limit) == At(jobs, places) + rows
  {
    PartsAreSlices(active, stored, start, limit);
    KeptPlaces(ActivePart(active, start, limit), StoredPart(active, stored, start, limit));
  }

  /** The page has this id at i. */
  predicate Shows(page: seq<Entry>, i: int, id: Id) {
    0 <= i < |page| && page[i].id == id
  }

  /** Where item k of the two lists together is in the parts of its slice. */
  lemma InItsPart(active: seq<Entry>, stored: seq<Entry>, start: nat, limit: nat, k: nat)
    requires start <= k < start + limit && k < |active| + |stored|
    ensures k < |active| ==>
      k - start < |ActivePart(active, start, limit)| && ActivePart(active, start, limit)[k - start] == (active + stored)[k]
    ensures k >= |active| ==>
      && k - Max(start, |active|) < |StoredPart(active, stored, start, limit)|
      && StoredPart(active, stored, start, limit)[k - Max(start, |active|)] == (active + stored)[k]
  {
  }

  /** So every job of the two lists' slice is on the page, under its id. */
  lemma EveryJobIsOnItsPage(active: seq<Entry>, stored: seq<Entry>, start: nat, limit: nat, k: nat)
    requires start <= k < start + limit && k < |active| + |stored|
    ensures exists i :: Shows(Page(active, stored, start, limit), i, (active + stored)[k].id)
  {
    PageIsExactly(active, stored, start, limit);
    InItsPart(active, stored, start, limit, k);
    var jobs, rows := ActivePart(active, start, limit), StoredPart(active, stored, start, limit);
    var places :| UnlistedFromEnd(jobs, rows, places) && Page(active, stored, start, limit) == At(jobs, places) + rows;
    IsShown(jobs, rows, places, k < |active|, if k < |active| then k - start else k - Max(start, |active|), (active + stored)[k].id);
  }

  lemma IsShown(jobs: seq<Entry>, rows: seq<Entry>, places: seq<nat>, job: bool, k: nat, id: Id)
    requires UnlistedFromEnd(jobs, rows, places)
    requires if job then k < |jobs| && jobs[k].id == id else k < |rows| && rows[k].id == id
    ensures exists i :: Shows(At(jobs, places) + rows, i, id)
  {
    if job {
      JobIsShown(jobs, rows, places, k);
    } else {
      RowIsShown(At(jobs, places), rows, k, id);
    }
  }

  lemma RowIsShown(kept: seq<Entry>, rows: seq<Entry>, j: nat, id: Id)
    requires j < |rows| && rows[j].id == id
    ensures exists i :: Shows(kept + rows, i, id)
  {
    assert Shows(kept + rows, |kept| + j, id);
  }

  lemma JobIsShown(jobs: seq<Entry>, rows: seq<Entry>, places: seq<nat>, k: nat)
    requires UnlistedFromEnd(jobs, rows, places) && k < |jobs|
    ensures exists i :: Shows(At(jobs, places) + rows, i, jobs[k].id)
  {
    if k in places {
      var i :| 0 <= i < |places| && places[i] == k;
      assert Shows(At(jobs, places) + rows, i, jobs[k].id);
    } else {
      var j :| 0 <= j < |rows| && rows[j].id == jobs[k].id;
      RowIsShown(At(jobs, places), rows, j, jobs[k].id);
    }
  }

  /** No job is in both lists. */
  predicate Disjoint(active: seq<Entry>, stored: seq<Entry>) {
    forall i, j :: 0 <= i < |active| && 0 <= j < |stored| ==> active[i].id != stored[j].id
  }

  lemma DisjointSlices(active: seq<Entry>, stored: seq<Entry>, start: nat, limit: nat)
    requires Disjoint(active, stored)
    ensures NoneListed(ActiveSlice(active, start, limit), StoredSlice(active, stored, start, limit))
  {
    var jobs, rows := ActiveSlice(active, start, limit), StoredSlice(active, stored, start, limit);
    forall i | 0 <= i < |jobs| ensures !HasId(rows, jobs[i].id) {
      assert jobs[i] == active[start + i];
      forall j | 0 <= j < |rows| ensures rows[j].id != jobs[i].id {
        var dbStart := if start >= |active| then start - |active| else 0;
        assert rows[j] == stored[dbStart + j];
      }
    }
  }

  /** For disjoint lists a page is the reversed post-processing slice followed by the database slice. */
  lemma PageInOrder(active: seq<Entry>, stored: seq<Entry>, start: nat, limit: nat)
    requires Disjoint(active, stored)
    ensures Page(active, stored, start, limit)
            == Reversed(ActiveSlice(active, start, limit)) + StoredSlice(active, stored, start, limit)
  {
    DisjointSlices(active, stored, start, limit);
    KeptExactly(ActiveSlice(active, start, limit), StoredSlice(active, stored, start, limit));
  }

  /** Where page n starts. */
  function PageStart(limit: nat, n: nat): nat {
    if n == 0 then 0 else PageStart(limit, n - 1) + limit
  }

  lemma {:induction false} PageStartIs(limit: nat, n: nat)
    ensures PageStart(limit, n) == n * limit
  {
    if n > 0 {
      PageStartIs(limit, n - 1);
      assert n * limit == (n - 1) * limit + limit;
    }
  }

  /** One after the other. */
  function Flatten<T>(parts: seq<seq<T>>): seq<T> {
    if parts == [] then [] else Flatten(parts[..|parts| - 1]) + parts[|parts| - 1]
  }

  lemma FlattenLast<T>(parts: seq<seq<T>>)
    requires parts != []
    ensures Flatten(parts) == Flatten(parts[..|parts| - 1]) + parts[|parts| - 1]
  {
  }

  lemma {:induction false} FlattenKeeps<T>(a: seq<seq<T>>, b: seq<seq<T>>)
    requires |a| == |b| && forall i :: 0 <= i < |a| ==> multiset(a[i]) == multiset(b[i])
    ensures multiset(Flatten(a)) == multiset(Flatten(b))
    decreases |a|
  {
    if a != [] {
      FlattenKeeps(a[..|a| - 1], b[..|b| - 1]);
    }
  }

  /** The slices of a sequence that the first n pages ask for. */
  function Cuts<T>(s: seq<T>, limit: nat, n: nat): seq<seq<T>> {
    seq(n, i requires 0 <= i < n => Slice(s, PageStart(limit, i), limit))
  }

  lemma SliceSteps<T>(s: seq<T>, at: nat, limit: nat)
    ensures s[..Min(at + limit, |s|)] == s[..Min(at, |s|)] + Slice(s, at, limit)
  {
  }

  /** They are, one after the other, the beginning of the sequence. */
  lemma {:induction false} CutsArePrefix<T>(s: seq<T>, limit: nat, n: nat)
    ensures Flatten(Cuts(s, limit, n)) == s[..Min(PageStart(limit, n), |s|)]
    decreases n
  {
    var cuts := Cuts(s, limit, n);
    if n == 0 {
      assert cuts == [] && s[..0] == [];
    } else {
      var at := PageStart(limit, n - 1);
      CutsArePrefix(s, limit, n - 1);
      SliceSteps(s, at, limit);
      assert cuts[..n - 1] == Cuts(s, limit, n - 1) && cuts[n - 1] == Slice(s, at, limit);
      FlattenLast(cuts);
    }
  }

  /** The first n pages. */
  function Pages(active: seq<Entry>, stored: seq<Entry>, limit: nat, n: nat): seq<seq<Entry>> {
    seq(n, i requires 0 <= i < n => Page(active, stored, PageStart(limit, i), limit))
  }

  /** Consecutive pages that reach the end list every job exactly once. */
  lemma PagesCoverEveryJobOnce(active: seq<Entry>, stored: seq<Entry>, limit: nat, n: nat)
    requires limit > 0 && Disjoint(active, stored) && n * limit >= |active| + |stored|
    ensures multiset(Flatten(Pages(active, stored, limit, n))) == multiset(active) + multiset(stored)
  {
    var all := active + stored;
    forall i | 0 <= i < n ensures multiset(Pages(active, stored, limit, n)[i]) == multiset(Cuts(all, limit, n)[i]) {
      DisjointSlices(active, stored, PageStart(limit, i), limit);
      PageIsSliceExactly(active, stored, PageStart(limit, i), limit);
    }
    FlattenKeeps(Pages(active, stored, limit, n), Cuts(all, limit, n));
    CutsArePrefix(all, limit, n);
    PageStartIs(limit, n);
    assert all[..|all|] == all;
  }

  /** Without a limit the database is never asked: its jobs are on no page. */
  lemma NoLimitHidesTheDatabase(active: seq<Entry>, stored: seq<Entry>, start: nat)
    ensures Page(active, stored, start, 0) == Reversed(ActiveSlice(active, start, 0))
  {
    KeptExactly(ActiveSlice(active, start, 0), []);
  }

  /** So the page without a limit is the rest of the two lists together exactly when the database holds nothing, or there
      is no rest. */
  lemma NoLimitIsRestExactly(active: seq<Entry>, stored: seq<Entry>, start: nat)
    ensures multiset(Page(active, stored, start, 0)) == multiset((active + stored)[Min(start, |active| + |stored|)..])
            <==> stored == [] || start >= |active| + |stored|
  {
    var jobs, rest := ActiveSlice(active, start, 0), (active + stored)[Min(start, |active| + |stored|)..];
    NoLimitHidesTheDatabase(active, stored, start);
    ReversedKeeps(jobs);
    assert |multiset(jobs)| == |jobs| && |multiset(rest)| == |rest|;
    if stored == [] && start < |active| {
      assert rest == active[start..];
    }
  }

  /** One job in post-processing and one in the database: the page without a limit lists the first alone, and the page
      with a limit of two lists both. */
  lemma RowIsHidden(job: Entry, row: Entry)
    requires job.id != row.id
    ensures Page([job], [row], 0, 0) == [job] && Page([job], [row], 0, 2) == [job, row]
  {
    NoLimitHidesTheDatabase([job], [row], 0);
    assert ActiveSlice([job], 0, 0) == [job] && ActiveSlice([job], 0, 2) == [job];
    assert StoredSlice([job], [row], 0, 2) == [row];
    assert Disjoint([job], [row]);
    PageInOrder([job], [row], 0, 2);
    assert Reversed([job]) == [job];
  }
}
