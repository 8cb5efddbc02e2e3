/** Counting work items by status and turning a done/total pair into the
    percentage the progress bars show; shared by the project dashboard and
    the iteration page. */
module WorkItemStats {
  import opened Schema
  import opened Percent

  /** `items.filter(i => i.status === s).length` */
  function CountStatus(items: seq<WorkItem>, s: Status): (n: nat)
    ensures n <= |items|
  {
    if items == [] then 0
    else CountStatus(items[..|items| - 1], s) + (if items[|items| - 1].status == s then 1 else 0)
  }

  /** Counting distributes over concatenation, so the count of a merged list
      is the sum of the counts of its parts. */
  lemma {:induction false} CountStatusAppend(a: seq<WorkItem>, b: seq<WorkItem>, s: Status)
    ensures CountStatus(a + b, s) == CountStatus(a, s) + CountStatus(b, s)
    decreases |b|
  {
    if b == [] {
      assert a + b == a;
    } else {
      assert (a + b)[..|a + b| - 1] == a + b[..|b| - 1];
      CountStatusAppend(a, b[..|b| - 1], s);
    }
  }

  /** A one-item list counts 1 for the item's own status and 0 for the
      others; with CountStatusAppend this fixes the count of every list. */
  lemma CountStatusSingleton(x: WorkItem, s: Status)
    ensures CountStatus([x], s) == (if x.status == s then 1 else 0)
  {
    assert [x][..0] == [];
  }

  /** The positions of `items` that hold status `s`. */
  function PositionsWith(items: seq<WorkItem>, s: Status): set<nat>
  {
    set i: nat | i < |items| && items[i].status == s
  }

  /** The count is the number of positions whose item has status `s`: the
      filter keeps exactly those items. */
  lemma {:induction false} CountStatusIsPositions(items: seq<WorkItem>, s: Status)
    ensures CountStatus(items, s) == |PositionsWith(items, s)|
    decreases |items|
  {
    if items != [] {
      var k := |items| - 1;
      var front := items[..k];
      CountStatusIsPositions(front, s);
      var here: set<nat> := if items[k].status == s then {k} else {};
      assert PositionsWith(items, s) == PositionsWith(front, s) + here;
      assert k !in PositionsWith(front, s);
    }
  }

  /** Every item has exactly one of the three statuses, so the three counts
      add up to the length of the list. */
  lemma {:induction false} CountPartition(items: seq<WorkItem>)
    ensures CountStatus(items, Open) + CountStatus(items, InProgress) + CountStatus(items, Closed) == |items|
  {
    if items != [] {
      CountPartition(items[..|items| - 1]);
    }
  }

  /** `total > 0 ? Math.round(done / total * 100) : 0` */
  function CompletionPercent(done: nat, total: nat): (r: nat)
    ensures total == 0 ==> r == 0
    ensures total > 0 ==> total * (2 * r) <= 200 * done + total < total * (2 * r + 2)
    ensures done <= total ==> r <= 100
  {
    if total > 0 then
      RoundPercentAtMostHundredIf(done, total);
      RoundPercent(done, total)
    else 0
  }

  lemma RoundPercentAtMostHundredIf(done: nat, total: nat)
    requires total > 0
    ensures done <= total ==> RoundPercent(done, total) <= 100
  {
    if done <= total {
      RoundPercentAtMostHundred(done, total);
    }
  }

  /** Nothing closed is 0 percent; everything closed (and something to
      close) is 100 percent. */
  lemma CompletionPercentEnds(total: nat)
    ensures CompletionPercent(0, total) == 0
    ensures total > 0 ==> CompletionPercent(total, total) == 100
  {
    if total > 0 {
      RoundPercentEnds(total);
    }
  }

  /** Closing more items never lowers the percentage. */
  lemma CompletionPercentMonotone(d1: nat, d2: nat, total: nat)
    requires d1 <= d2
    ensures CompletionPercent(d1, total) <= CompletionPercent(d2, total)
  {
    if total > 0 {
      RoundPercentMonotone(d1, d2, total);
    }
  }
}
