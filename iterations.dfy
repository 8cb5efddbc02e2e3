/** The iteration page of a project: date-derived status and calendar
    progress of each iteration, the current iteration and its completion
    statistics, the end-date validator, and the lock guards around editing,
    planning and locking. */
module Iterations {
  import opened Common
  import opened Js
  import opened Schema
  import opened Percent
  import opened Labels
  import opened WorkItemStats

  // ---- status ----

  /** The three states `getIterationStatus` tells apart. */
  datatype Phase = Completed | Running | Planning

  /** Whether `today` lies in the iteration's window, ends included. */
  predicate InWindow(it: Iteration, today: Day) {
    it.startDate <= today && it.endDate >= today
  }

  /** `getIterationStatus`: completed once the end date is past, running
      while today is in the window, planning otherwise. The three cases are
      exclusive and exhaustive, and planning means the iteration has not
      started yet. */
  function PhaseOf(it: Iteration, today: Day): (p: Phase)
    ensures p == Completed <==> it.endDate < today
    ensures p == Running <==> it.startDate <= today <= it.endDate
    ensures p == Planning <==> today < it.startDate && today <= it.endDate
  {
    if it.endDate < today then Completed
    else if InWindow(it, today) then Running
    else Planning
  }

  /** The lock flag never changes the status. */
  lemma PhaseIgnoresLock(it: Iteration, lock: Option<bool>, today: Day)
    ensures PhaseOf(it.(isLocked := lock), today) == PhaseOf(it, today)
  {
  }

  function PhaseRank(p: Phase): nat {
    match p
    case Planning => 0
    case Running => 1
    case Completed => 2
  }

  /** As days pass an iteration whose end is not before its start only moves
      forward: planning, then running, then completed. */
  lemma PhaseAdvances(it: Iteration, t1: Day, t2: Day)
    requires it.startDate <= it.endDate && t1 <= t2
    ensures PhaseRank(PhaseOf(it, t1)) <= PhaseRank(PhaseOf(it, t2))
  {
  }

  /** The tag of the status column. */
  function PhaseTag(p: Phase): (t: Tag)
    ensures p == Completed ==> t == Tag("已完成", "green")
    ensures p == Running ==> t == Tag("进行中", "blue")
    ensures p == Planning ==> t == Tag("规划中", "gold")
  {
    match p
    case Completed => Tag("已完成", "green")
    case Running => Tag("进行中", "blue")
    case Planning => Tag("规划中", "gold")
  }

  /** The status tag of an iteration, read off its dates and today. */
  function IterationStatus(it: Iteration, today: Day): (t: Tag)
    ensures it.endDate < today ==> t == Tag("已完成", "green")
    ensures it.startDate <= today <= it.endDate ==> t == Tag("进行中", "blue")
    ensures today < it.startDate && today <= it.endDate ==> t == Tag("规划中", "gold")
  {
    PhaseTag(PhaseOf(it, today))
  }

  /** The three statuses render as three different tags. */
  lemma IterationStatusDistinct(it1: Iteration, it2: Iteration, today: Day)
    ensures IterationStatus(it1, today) == IterationStatus(it2, today) <==> PhaseOf(it1, today) == PhaseOf(it2, today)
  {
  }

  // ---- calendar progress ----

  /** `getIterationProgress`: 100 once the end is past, 0 before the start,
      and in the window the elapsed share of the window's days, rounded and
      capped at 100. When the window is a single day and that day is today
      the code divides 0 by 0 and yields NaN, which is `None` here. */
  function Progress(it: Iteration, today: Day): (r: Option<nat>)
    ensures it.endDate < today ==> r == Some(100)
    ensures !(it.endDate < today) && today < it.startDate ==> r == Some(0)
    ensures r.None? <==> it.startDate == today && it.endDate == today
    ensures r.Some? ==> r.value <= 100
    ensures r.Some? && InWindow(it, today) && it.startDate < it.endDate ==>
      (it.endDate - it.startDate) * (2 * r.value) <= 200 * (today - it.startDate) + (it.endDate - it.startDate)
        < (it.endDate - it.startDate) * (2 * r.value + 2)
  {
    if it.endDate < today then Some(100)
    else if it.startDate > today then Some(0)
    else if it.endDate == it.startDate then None
    else
      var rounded := RoundPercent(today - it.startDate, it.endDate - it.startDate);
      RoundPercentAtMostHundred(today - it.startDate, it.endDate - it.startDate);
      Some(if rounded < 100 then rounded else 100)
  }

  /** Inside the window the elapsed days never exceed the window's days, so
      the cap at 100 never changes the rounded value. */
  lemma ProgressCapNeverBinds(it: Iteration, today: Day)
    requires InWindow(it, today) && it.startDate < it.endDate
    ensures Progress(it, today) == Some(RoundPercent(today - it.startDate, it.endDate - it.startDate))
  {
    RoundPercentAtMostHundred(today - it.startDate, it.endDate - it.startDate);
  }

  /** Progress follows the status: 100 when completed, 0 when planning, and
      0 on the first day of a running window longer than one day. */
  lemma ProgressFollowsPhase(it: Iteration, today: Day)
    ensures PhaseOf(it, today) == Completed ==> Progress(it, today) == Some(100)
    ensures PhaseOf(it, today) == Planning ==> Progress(it, today) == Some(0)
    ensures PhaseOf(it, today) == Running && it.startDate == today < it.endDate ==> Progress(it, today) == Some(0)
  {
    if PhaseOf(it, today) == Running && it.startDate == today < it.endDate {
      RoundPercentEnds(it.endDate - it.startDate);
    }
  }

  /** Progress never goes back as days pass. */
  lemma ProgressMonotone(it: Iteration, t1: Day, t2: Day)
    requires t1 <= t2
    requires Progress(it, t1).Some? && Progress(it, t2).Some?
    ensures Progress(it, t1).value <= Progress(it, t2).value
  {
    var s, e := it.startDate, it.endDate;
    if InWindow(it, t1) && InWindow(it, t2) {
      ProgressCapNeverBinds(it, t1);
      ProgressCapNeverBinds(it, t2);
      RoundPercentMonotone(t1 - s, t2 - s, e - s);
    }
  }

  /** Half way through any window of an even number of days the bar shows
      50 percent. */
  lemma ProgressHalfWay(it: Iteration, k: nat)
    requires k > 0 && it.endDate == it.startDate + 2 * k
    ensures Progress(it, it.startDate + k) == Some(50)
  {
    ProgressCapNeverBinds(it, it.startDate + k);
    RoundPercentHalf(k);
  }

  /** A one-day iteration that is today has no progress value. */
  lemma ProgressSingleDayToday(d: Day)
    ensures Progress(Iteration(1, None, d, d, None, None, None), d) == None
    ensures Progress(Iteration(1, None, d, d, None, None, None), d - 1) == Some(0)
    ensures Progress(Iteration(1, None, d, d, None, None, None), d + 1) == Some(100)
  {
  }

  // ---- current iteration ----

  /** `iterations.find(iter => iter.start_date <= today && iter.end_date >= today)`:
      the first iteration, in list order, whose window holds today. The
      dashboard selects its current iteration with the same find. */
  function CurrentIteration(its: seq<Iteration>, today: Day): (r: Option<Iteration>)
    ensures r.None? <==> forall i :: 0 <= i < |its| ==> !InWindow(its[i], today)
    ensures r.Some? ==> (exists i :: 0 <= i < |its| && its[i] == r.value
                          && (forall j :: 0 <= j < i ==> !InWindow(its[j], today)))
    ensures r.Some? ==> InWindow(r.value, today)
  {
    if its == [] then None
    else if InWindow(its[0], today) then
      Some(its[0])
    else
      var rest := CurrentIteration(its[1..], today);
      if rest.Some? then
        var i :| 0 <= i < |its[1..]| && its[1..][i] == rest.value
          && (forall j :: 0 <= j < i ==> !InWindow(its[1..][j], today));
        assert its[i + 1] == rest.value;
        assert forall j :: 0 <= j < i + 1 ==> !InWindow(its[j], today) by {
          forall j | 0 <= j < i + 1 ensures !InWindow(its[j], today) {
            if j > 0 {
              assert its[j] == its[1..][j - 1];
            }
          }
        }
        rest
      else
        assert forall i :: 0 <= i < |its| ==> !InWindow(its[i], today) by {
          forall i | 0 <= i < |its| ensures !InWindow(its[i], today) {
            if i > 0 {
              assert its[i] == its[1..][i - 1];
            }
          }
        }
        rest
  }

  /** The current iteration is always shown as running. */
  lemma CurrentIsRunning(its: seq<Iteration>, today: Day)
    requires CurrentIteration(its, today).Some?
    ensures PhaseOf(CurrentIteration(its, today).value, today) == Running
  {
  }

  // ---- statistics of the current iteration ----

  /** The `stats` object of the current-iteration card. */
  datatype IterationStats = IterationStats(
    requirementsTotal: nat, requirementsDone: nat,
    tasksTotal: nat, tasksDone: nat,
    defectsTotal: nat, defectsDone: nat,
    totalItems: nat, totalDone: nat,
    progress: nat)

  /** `list?.length || 0`: a missing list counts as empty. */
  function TotalOf(list: Option<seq<WorkItem>>): (n: nat)
    ensures list.None? ==> n == 0
    ensures list.Some? ==> n == |list.value|
  {
    if list.None? then 0 else |list.value|
  }

  /** `list?.filter(i => i.status === 'closed').length || 0` */
  function DoneOf(list: Option<seq<WorkItem>>): (n: nat)
    ensures n <= TotalOf(list)
    ensures list.None? ==> n == 0
    ensures list.Some? ==> n == CountStatus(list.value, Closed)
  {
    if list.None? then 0 else CountStatus(list.value, Closed)
  }

  /** The statistics of the current iteration's requirements, tasks and
      defects; the progress is the rounded share of closed items, 0 when the
      iteration holds no items. */
  function StatsOf(reqs: Option<seq<WorkItem>>, tasks: Option<seq<WorkItem>>, defects: Option<seq<WorkItem>>): (s: IterationStats)
    ensures s.totalItems == s.requirementsTotal + s.tasksTotal + s.defectsTotal
    ensures s.totalDone == s.requirementsDone + s.tasksDone + s.defectsDone
    ensures s.totalDone <= s.totalItems && s.progress <= 100
    ensures s.totalItems == 0 ==> s.progress == 0
    ensures s.totalItems > 0 ==> s.totalItems * (2 * s.progress) <= 200 * s.totalDone + s.totalItems < s.totalItems * (2 * s.progress + 2)
  {
    var rt, rd := TotalOf(reqs), DoneOf(reqs);
    var tt, td := TotalOf(tasks), DoneOf(tasks);
    var dt, dd := TotalOf(defects), DoneOf(defects);
    IterationStats(rt, rd, tt, td, dt, dd, rt + tt + dt, rd + td + dd,
      CompletionPercent(rd + td + dd, rt + tt + dt))
  }

  /** The card's counts are the counts of the three lists merged into one. */
  lemma StatsOfMerged(reqs: seq<WorkItem>, tasks: seq<WorkItem>, defects: seq<WorkItem>)
    ensures StatsOf(Some(reqs), Some(tasks), Some(defects)).totalItems == |reqs + tasks + defects|
    ensures StatsOf(Some(reqs), Some(tasks), Some(defects)).totalDone == CountStatus(reqs + tasks + defects, Closed)
  {
    CountStatusAppend(reqs, tasks, Closed);
    CountStatusAppend(reqs + tasks, defects, Closed);
  }

  /** The card appears only when there is a current iteration; it then holds
      that iteration and the statistics of its items. */
  datatype CurrentCard = CurrentCard(iteration: Iteration, stats: IterationStats)

  function CurrentIterationCard(its: seq<Iteration>, today: Day,
      itemsOf: int -> (Option<seq<WorkItem>>, Option<seq<WorkItem>>, Option<seq<WorkItem>>)): (c: Option<CurrentCard>)
    ensures c.None? <==> CurrentIteration(its, today).None?
    ensures c.Some? ==> c.value.iteration == CurrentIteration(its, today).value
    ensures c.Some? ==> c.value.stats == StatsOf(itemsOf(c.value.iteration.id).0, itemsOf(c.value.iteration.id).1, itemsOf(c.value.iteration.id).2)
  {
    match CurrentIteration(its, today)
    case None => None
    case Some(cur) =>
      var lists := itemsOf(cur.id);
      Some(CurrentCard(cur, StatsOf(lists.0, lists.1, lists.2)))
  }

  // ---- the end-date validator ----

  /** The end-date rule: passes when either date is still empty or the start
      is not after the end; equal dates pass. It rejects exactly an end date
      before the start date. */
  predicate EndDateValid(start: Option<Day>, end: Option<Day>)
    ensures !EndDateValid(start, end) <==> start.Some? && end.Some? && end.value < start.value
  {
    end.None? || start.None? || start.value <= end.value
  }

  /** The rule lets through the one-day window whose progress is undefined
      on its day. */
  lemma EndDateRule(d: Day)
    ensures EndDateValid(Some(d), Some(d))
      && Progress(Iteration(0, None, d, d, None, None, None), d).None?
  {
  }

  /** `record.is_locked ?? false`, the disabled flag of the edit and plan
      buttons: disabled exactly when the handlers refuse the iteration. */
  function ButtonsDisabled(it: Iteration): (b: bool)
    ensures b <==> Locked(it)
  {
    if it.isLocked.None? then false else it.isLocked.value
  }

  // ---- the page's handlers ----

  /** What a handler asks of the iteration service, or the error it shows. */
  datatype IterationCall =
    | NoCall
    | Refused(message: string)
    | UpdateIteration(id: int, startDate: Day, endDate: Day)
    | CreateIteration(startDate: Day, endDate: Day, projectId: JsNumber, creatorId: Value, createdAt: string, isLocked: bool)
    | LockIteration(id: int)
    | UnlockIteration(id: int)

  const LockedEditMessage := "迭代已锁定，无法编辑"
  const LockedPlanMessage := "迭代已锁定，无法规划"

  /** `handleLockIteration`: the lock button toggles. */
  function LockAction(it: Iteration): (c: IterationCall)
    ensures Locked(it) ==> c == UnlockIteration(it.id)
    ensures !Locked(it) ==> c == LockIteration(it.id)
  {
    if Locked(it) then UnlockIteration(it.id) else LockIteration(it.id)
  }

  /** Locking and then unlocking (or the reverse) is a round trip: the action
      on the toggled iteration undoes the first one. */
  lemma LockActionToggles(it: Iteration)
    ensures LockAction(it.(isLocked := Some(!Locked(it)))) ==
      (if Locked(it) then LockIteration(it.id) else UnlockIteration(it.id))
  {
  }

  /** The component state of the iteration page that its handlers change. */
  class IterationsPage {
    var isModalVisible: bool
    var isPlanModalVisible: bool
    var editingIteration: Option<Iteration>
    var selectedIteration: Option<Iteration>
    /** The modal form's `start_date` and `end_date` fields. */
    var formStart: Option<Day>
    var formEnd: Option<Day>

    constructor()
      ensures !isModalVisible && !isPlanModalVisible
      ensures editingIteration.None? && selectedIteration.None?
      ensures formStart.None? && formEnd.None?
    {
      isModalVisible := false;
      isPlanModalVisible := false;
      editingIteration := None;
      selectedIteration := None;
      formStart := None;
      formEnd := None;
    }

    /** `showModal`: edit an iteration with its dates in the form, or start
        a new one with an empty form. */
    method ShowModal(it: Option<Iteration>)
      modifies this
      ensures isModalVisible && editingIteration == it
      ensures it.Some? ==> formStart == Some(it.value.startDate) && formEnd == Some(it.value.endDate)
      ensures it.None? ==> formStart.None? && formEnd.None?
      ensures isPlanModalVisible == old(isPlanModalVisible) && selectedIteration == old(selectedIteration)
    {
      if it.Some? {
        editingIteration := it;
        formStart, formEnd := Some(it.value.startDate), Some(it.value.endDate);
      } else {
        editingIteration := None;
        formStart, formEnd := None, None;
      }
      isModalVisible := true;
    }

    /** `handleCancel` */
    method HandleCancel()
      modifies this
      ensures !isModalVisible && editingIteration.None?
      ensures formStart.None? && formEnd.None?
      ensures isPlanModalVisible == old(isPlanModalVisible) && selectedIteration == old(selectedIteration)
    {
      isModalVisible := false;
      editingIteration := None;
      formStart, formEnd := None, None;
    }

    /** `handleSubmit`: the form is validated first (both dates required, the
        end not before the start); then a locked iteration is refused, an
        edited one is updated and a new one is created unlocked in the
        route's project. */
    method HandleSubmit(routeProjectId: string, user: Option<User>, now: string) returns (call: IterationCall)
      ensures formStart.None? || formEnd.None? || !EndDateValid(formStart, formEnd) ==> call == NoCall
      ensures formStart.Some? && formEnd.Some? && EndDateValid(formStart, formEnd) ==> call != NoCall
      ensures call.UpdateIteration? <==> call != NoCall && editingIteration.Some? && !Locked(editingIteration.value)
      ensures call.Refused? <==> call != NoCall && editingIteration.Some? && Locked(editingIteration.value)
      ensures call.Refused? ==> call.message == LockedEditMessage
      ensures call.UpdateIteration? ==> call == UpdateIteration(editingIteration.value.id, formStart.value, formEnd.value)
      ensures call.CreateIteration? <==> call != NoCall && editingIteration.None?
      ensures call.CreateIteration? ==> call == CreateIteration(formStart.value, formEnd.value,
        ToNumber(routeProjectId), UserIdOrNull(user), now, false)
      ensures call != NoCall ==> formStart.Some? && formEnd.Some? && formStart.value <= formEnd.value
    {
      if formStart.None? || formEnd.None? || !EndDateValid(formStart, formEnd) {
        return NoCall;
      }
      var values := (formStart.value, formEnd.value);
      if editingIteration.Some? {
        if Locked(editingIteration.value) {
          return Refused(LockedEditMessage);
        }
        call := UpdateIteration(editingIteration.value.id, values.0, values.1);
      } else {
        call := CreateIteration(values.0, values.1, ToNumber(routeProjectId), UserIdOrNull(user), now, false);
      }
    }

    /** `handlePlanIteration`: a locked iteration shows an error and the plan
        modal stays closed; otherwise it is selected and the modal opens. */
    method HandlePlanIteration(it: Iteration) returns (error: Option<string>)
      modifies this
      ensures Locked(it) ==> error == Some(LockedPlanMessage)
      ensures Locked(it) ==> isPlanModalVisible == old(isPlanModalVisible) && selectedIteration == old(selectedIteration)
      ensures !Locked(it) ==> error.None? && isPlanModalVisible && selectedIteration == Some(it)
      ensures isModalVisible == old(isModalVisible) && editingIteration == old(editingIteration)
      ensures formStart == old(formStart) && formEnd == old(formEnd)
    {
      if Locked(it) {
        return Some(LockedPlanMessage);
      }
      selectedIteration := Some(it);
      isPlanModalVisible := true;
      error := None;
    }
  }
}
