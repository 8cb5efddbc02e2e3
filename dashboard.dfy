/** The project dashboard: per-type status counts, the overall and per-type
    completion percentages, and the five most recently created work items.
    The current iteration is `Iterations.CurrentIteration`. */
module Dashboard {
  import opened Common
  import opened Schema
  import opened WorkItemStats

  // ---- per-type statistics ----

  datatype StatusStats = StatusStats(open: nat, inProgress: nat, closed: nat, total: nat)

  /** `requirementStats` / `taskStats` / `defectStats`: the status counts
      of a list, all zero while the list is missing. */
  function TypeStats(items: Option<seq<WorkItem>>): (s: StatusStats)
    ensures items.None? ==> s == StatusStats(0, 0, 0, 0)
    ensures items.Some? ==> s.total == |items.value| && s.closed == CountStatus(items.value, Closed)
    ensures items.Some? ==> s.open == CountStatus(items.value, Open) && s.inProgress == CountStatus(items.value, InProgress)
    ensures s.open + s.inProgress + s.closed == s.total
  {
    match items
    case None => StatusStats(0, 0, 0, 0)
    case Some(list) =>
      CountPartition(list);
      StatusStats(CountStatus(list, Open), CountStatus(list, InProgress), CountStatus(list, Closed), |list|)
  }

  /** The per-type progress bar: 0 when the type has no items, otherwise the
      rounded closed share. */
  function TypePercent(s: StatusStats): (r: nat)
    ensures s.total == 0 ==> r == 0
    ensures s.total > 0 ==> s.total * (2 * r) <= 200 * s.closed + s.total < s.total * (2 * r + 2)
  {
    CompletionPercent(s.closed, s.total)
  }

  /** `completionRate`: the rounded share of closed items over all three
      types, 0 when there are none. */
  function CompletionRate(req: StatusStats, task: StatusStats, defect: StatusStats): (r: nat)
    ensures req.total + task.total + defect.total == 0 ==> r == 0
    ensures req.total + task.total + defect.total > 0 ==>
      (req.total + task.total + defect.total) * (2 * r)
        <= 200 * (req.closed + task.closed + defect.closed) + (req.total + task.total + defect.total)
        < (req.total + task.total + defect.total) * (2 * r + 2)
  {
    CompletionPercent(req.closed + task.closed + defect.closed, req.total + task.total + defect.total)
  }

  /** Every percentage the dashboard shows lies between 0 and 100. */
  lemma PercentagesBounded(reqs: Option<seq<WorkItem>>, tasks: Option<seq<WorkItem>>, defects: Option<seq<WorkItem>>)
    ensures TypePercent(TypeStats(reqs)) <= 100
    ensures TypePercent(TypeStats(tasks)) <= 100
    ensures TypePercent(TypeStats(defects)) <= 100
    ensures CompletionRate(TypeStats(reqs), TypeStats(tasks), TypeStats(defects)) <= 100
  {
  }

  /** The overall rate is 100 when every item is closed and 0 when none is. */
  lemma CompletionRateEnds(reqs: seq<WorkItem>, tasks: seq<WorkItem>, defects: seq<WorkItem>)
    ensures CountStatus(reqs + tasks + defects, Closed) == 0 ==>
      CompletionRate(TypeStats(Some(reqs)), TypeStats(Some(tasks)), TypeStats(Some(defects))) == 0
    ensures CountStatus(reqs + tasks + defects, Closed) == |reqs + tasks + defects| > 0 ==>
      CompletionRate(TypeStats(Some(reqs)), TypeStats(Some(tasks)), TypeStats(Some(defects))) == 100
  {
    CountStatusAppend(reqs, tasks, Closed);
    CountStatusAppend(reqs + tasks, defects, Closed);
    RateEnds(TypeStats(Some(reqs)), TypeStats(Some(tasks)), TypeStats(Some(defects)));
  }

  lemma RateEnds(r: StatusStats, t: StatusStats, d: StatusStats)
    ensures r.closed + t.closed + d.closed == 0 ==> CompletionRate(r, t, d) == 0
    ensures r.closed + t.closed + d.closed == r.total + t.total + d.total > 0 ==> CompletionRate(r, t, d) == 100
  {
    CompletionPercentEnds(r.total + t.total + d.total);
  }

  // ---- recent items ----

  /** A work item tagged with its type, as merged into `allItems`. */
  datatype RecentItem = RecentItem(kind: ItemType, item: WorkItem)

  /** `.map(x => ({...x, type: ...}))` */
  function Tagged(kind: ItemType, items: seq<WorkItem>): (r: seq<RecentItem>)
    ensures |r| == |items|
    ensures forall i :: 0 <= i < |r| ==> r[i] == RecentItem(kind, items[i])
  {
    if items == [] then [] else [RecentItem(kind, items[0])] + Tagged(kind, items[1..])
  }

  /** `item.created_at` is truthy: present and not empty. */
  predicate HasCreatedAt(r: RecentItem) {
    r.item.createdAt.Some? && r.item.createdAt.value != ""
  }

  /** `.filter(item => item.created_at)` */
  function WithCreatedAt(items: seq<RecentItem>): (r: seq<RecentItem>)
    ensures forall x :: x in r ==> HasCreatedAt(x)
    ensures multiset(r) <= multiset(items) && |r| <= |items|
    ensures forall x :: x in multiset(items) && HasCreatedAt(x) ==> multiset(r)[x] == multiset(items)[x]
  {
    if items == [] then []
    else
      var rest := WithCreatedAt(items[1..]);
      assert items == [items[0]] + items[1..];
      if HasCreatedAt(items[0]) then [items[0]] + rest else rest
  }

  /** The creation time `new Date(created_at).getTime()`; parsing the date
      text is the parameter `timeOf`. */
  function Stamp(timeOf: string -> int, r: RecentItem): int {
    if r.item.createdAt.Some? then timeOf(r.item.createdAt.value) else 0
  }

  predicate NewestFirst(timeOf: string -> int, s: seq<RecentItem>) {
    forall i, j :: 0 <= i < j < |s| ==> Stamp(timeOf, s[i]) >= Stamp(timeOf, s[j])
  }

  /** Puts `x` before the first element that is not newer than it. */
  function Insert(timeOf: string -> int, x: RecentItem, s: seq<RecentItem>): (r: seq<RecentItem>)
    requires NewestFirst(timeOf, s)
    ensures NewestFirst(timeOf, r)
    ensures multiset(r) == multiset(s) + multiset{x}
  {
    if s == [] || Stamp(timeOf, x) >= Stamp(timeOf, s[0]) then
      NoNewerThan(timeOf, Stamp(timeOf, x), s);
      ConsNewestFirst(timeOf, x, s);
      [x] + s
    else
      var rest := Insert(timeOf, x, s[1..]);
      assert s == [s[0]] + s[1..];
      NoNewerThan(timeOf, Stamp(timeOf, s[0]), s[1..]);
      NoNewerThanMerged(timeOf, Stamp(timeOf, s[0]), x, s[1..], rest);
      ConsNewestFirst(timeOf, s[0], rest);
      [s[0]] + rest
  }

  /** A time no older than the head of a newest-first list is no older
      than any of its elements. */
  lemma NoNewerThan(timeOf: string -> int, v: int, s: seq<RecentItem>)
    requires NewestFirst(timeOf, s) && (s == [] || v >= Stamp(timeOf, s[0]))
    ensures forall y :: y in s ==> v >= Stamp(timeOf, y)
  {
    forall y | y in s ensures v >= Stamp(timeOf, y) {
      var j :| 0 <= j < |s| && s[j] == y;
      if j > 0 {
        assert Stamp(timeOf, s[0]) >= Stamp(timeOf, s[j]);
      }
    }
  }

  lemma NoNewerThanMerged(timeOf: string -> int, v: int, x: RecentItem, t: seq<RecentItem>, r: seq<RecentItem>)
    requires multiset(r) == multiset(t) + multiset{x}
    requires v >= Stamp(timeOf, x) && forall y :: y in t ==> v >= Stamp(timeOf, y)
    ensures forall y :: y in r ==> v >= Stamp(timeOf, y)
  {
    forall y | y in r ensures v >= Stamp(timeOf, y) {
      assert y in multiset(r);
      if y != x {
        assert y in multiset(t);
      }
    }
  }

  lemma ConsNewestFirst(timeOf: string -> int, h: RecentItem, t: seq<RecentItem>)
    requires NewestFirst(timeOf, t)
    requires forall y :: y in t ==> Stamp(timeOf, h) >= Stamp(timeOf, y)
    ensures NewestFirst(timeOf, [h] + t)
  {
    var s := [h] + t;
    forall i, j | 0 <= i < j < |s| ensures Stamp(timeOf, s[i]) >= Stamp(timeOf, s[j]) {
      assert s[j] == t[j - 1];
      if i == 0 {
        assert t[j - 1] in t;
      } else {
        assert s[i] == t[i - 1];
      }
    }
  }

  /** `.sort((a, b) => time(b) - time(a))`: newest first. */
  function SortNewestFirst(timeOf: string -> int, s: seq<RecentItem>): (r: seq<RecentItem>)
    ensures NewestFirst(timeOf, r)
    ensures multiset(r) == multiset(s)
  {
    if s == [] then []
    else
      assert s == [s[0]] + s[1..];
      Insert(timeOf, s[0], SortNewestFirst(timeOf, s[1..]))
  }

  const RecentCount := 5

  /** `.sort(...).slice(0, 5)`: the five newest candidates, newest first;
      every candidate left out is no newer than every one kept. */
  function Newest(timeOf: string -> int, c: seq<RecentItem>): (r: seq<RecentItem>)
    ensures |r| == (if |c| < RecentCount then |c| else RecentCount)
    ensures NewestFirst(timeOf, r)
    ensures multiset(r) <= multiset(c)
    ensures forall x, y :: x in multiset(c) - multiset(r) && y in r ==> Stamp(timeOf, x) <= Stamp(timeOf, y)
  {
    var sorted := SortNewestFirst(timeOf, c);
    assert |sorted| == |c| by {
      assert |multiset(sorted)| == |multiset(c)|;
    }
    var k := if |sorted| <= RecentCount then |sorted| else RecentCount;
    PrefixOfSorted(timeOf, sorted, k);
    sorted[..k]
  }

  /** The candidates of the recent list: every tagged item with a creation time. */
  function Candidates(reqs: seq<WorkItem>, tasks: seq<WorkItem>, defects: seq<WorkItem>): (r: seq<RecentItem>)
    ensures forall x :: x in r ==> HasCreatedAt(x)
    ensures |r| <= |reqs| + |tasks| + |defects|
  {
    var all := Tagged(RequirementType, reqs) + Tagged(TaskType, tasks) + Tagged(DefectType, defects);
    WithCreatedAt(all)
  }

  /** No item with a creation time is lost: every such item of the three
      lists is a candidate under its own type. */
  lemma CandidatesComplete(reqs: seq<WorkItem>, tasks: seq<WorkItem>, defects: seq<WorkItem>, x: RecentItem)
    requires HasCreatedAt(x)
    requires (x.kind == RequirementType && x.item in reqs) || (x.kind == TaskType && x.item in tasks)
      || (x.kind == DefectType && x.item in defects)
    ensures x in Candidates(reqs, tasks, defects)
  {
    var a, b, d := Tagged(RequirementType, reqs), Tagged(TaskType, tasks), Tagged(DefectType, defects);
    var items := if x.kind == RequirementType then reqs else if x.kind == TaskType then tasks else defects;
    var i :| 0 <= i < |items| && items[i] == x.item;
    assert x in a + b + d by {
      if x.kind == RequirementType { assert a[i] == x; }
      else if x.kind == TaskType { assert b[i] == x; }
      else { assert d[i] == x; }
    }
    assert x in multiset(a + b + d);
    assert x in multiset(Candidates(reqs, tasks, defects));
  }

  /** `recentItems`: empty unless all three lists are loaded; otherwise the
      tagged merge with the items lacking a creation time dropped, sorted
      newest first, and cut after five. It is as long as it can be, and no
      candidate left out is newer than an item shown. */
  function RecentItems(timeOf: string -> int, reqs: Option<seq<WorkItem>>, tasks: Option<seq<WorkItem>>,
      defects: Option<seq<WorkItem>>): (r: seq<RecentItem>)
    ensures reqs.None? || tasks.None? || defects.None? ==> r == []
    ensures |r| <= RecentCount && NewestFirst(timeOf, r)
    ensures forall x :: x in r ==> HasCreatedAt(x)
    ensures reqs.Some? && tasks.Some? && defects.Some? ==>
      var c := Candidates(reqs.value, tasks.value, defects.value);
      && |r| == (if |c| < RecentCount then |c| else RecentCount)
      && multiset(r) <= multiset(c)
      && (forall x, y :: x in multiset(c) - multiset(r) && y in r ==> Stamp(timeOf, x) <= Stamp(timeOf, y))
  {
    if reqs.None? || tasks.None? || defects.None? then []
    else
      var c := Candidates(reqs.value, tasks.value, defects.value);
      var r := Newest(timeOf, c);
      KeptHaveCreatedAt(c, r);
      r
  }

  lemma KeptHaveCreatedAt(c: seq<RecentItem>, r: seq<RecentItem>)
    requires forall x :: x in c ==> HasCreatedAt(x)
    requires multiset(r) <= multiset(c)
    ensures forall x :: x in r ==> HasCreatedAt(x)
  {
    forall x | x in r ensures HasCreatedAt(x) {
      assert x in multiset(r);
      assert x in multiset(c);
    }
  }

  /** A prefix of a newest-first list is newest first, and what it leaves out
      is no newer than anything it keeps. */
  lemma PrefixOfSorted(timeOf: string -> int, s: seq<RecentItem>, k: nat)
    requires NewestFirst(timeOf, s) && k <= |s|
    ensures NewestFirst(timeOf, s[..k])
    ensures multiset(s[..k]) <= multiset(s)
    ensures forall x, y :: x in multiset(s) - multiset(s[..k]) && y in s[..k] ==> Stamp(timeOf, x) <= Stamp(timeOf, y)
  {
    PrefixNewestFirst(timeOf, s, k);
    SplitMultiset(s, k);
    TailNoNewer(timeOf, s, k);
  }

  lemma PrefixNewestFirst(timeOf: string -> int, s: seq<RecentItem>, k: nat)
    requires NewestFirst(timeOf, s) && k <= |s|
    ensures NewestFirst(timeOf, s[..k])
  {
    forall i, j | 0 <= i < j < k ensures Stamp(timeOf, s[..k][i]) >= Stamp(timeOf, s[..k][j]) {
      assert s[..k][i] == s[i] && s[..k][j] == s[j];
    }
  }

  lemma SplitMultiset(s: seq<RecentItem>, k: nat)
    requires k <= |s|
    ensures multiset(s[..k]) <= multiset(s)
    ensures multiset(s) - multiset(s[..k]) == multiset(s[k..])
  {
    assert s == s[..k] + s[k..];
  }

  lemma TailNoNewer(timeOf: string -> int, s: seq<RecentItem>, k: nat)
    requires NewestFirst(timeOf, s) && k <= |s|
    ensures forall x, y :: x in s[k..] && y in s[..k] ==> Stamp(timeOf, x) <= Stamp(timeOf, y)
  {
    forall x, y | x in s[k..] && y in s[..k] ensures Stamp(timeOf, x) <= Stamp(timeOf, y) {
      var a :| 0 <= a < |s[k..]| && s[k..][a] == x;
      var b :| 0 <= b < k && s[..k][b] == y;
      assert s[b] == y && s[k + a] == x;
    }
  }

  lemma TaggedMember(kind: ItemType, items: seq<WorkItem>, x: RecentItem)
    requires x in Tagged(kind, items)
    ensures x.kind == kind && x.item in items
  {
    var i :| 0 <= i < |items| && Tagged(kind, items)[i] == x;
    assert items[i] == x.item;
  }

  /** Every item keeps its type tag: a requirement is listed as a
      requirement, and so on. */
  lemma TagKeepsType(reqs: seq<WorkItem>, tasks: seq<WorkItem>, defects: seq<WorkItem>, x: RecentItem)
    requires x in Candidates(reqs, tasks, defects)
    ensures x.kind == RequirementType ==> x.item in reqs
    ensures x.kind == TaskType ==> x.item in tasks
    ensures x.kind == DefectType ==> x.item in defects
  {
    var a, b, d := Tagged(RequirementType, reqs), Tagged(TaskType, tasks), Tagged(DefectType, defects);
    assert x in multiset(Candidates(reqs, tasks, defects));
    assert x in multiset(a + b + d);
    assert x in a + b + d;
    if x in a {
      TaggedMember(RequirementType, reqs, x);
    } else if x in b {
      TaggedMember(TaskType, tasks, x);
    } else {
      TaggedMember(DefectType, defects, x);
    }
  }
}
