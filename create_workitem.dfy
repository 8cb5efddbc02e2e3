/** The create/edit modal shared by the work-item pages: the effect that
    loads the item being edited into the form (or resets it), the payload it
    hands to its caller, its initial values and its status options. */
module CreateWorkitem {
  import opened Common
  import opened Schema
  import opened ItemForm
  import WorkitemTable
  import Labels

  /** The form's `initialValues`, which `resetFields` restores. */
  const InitialValues: Record := map["status" := Str("open"), "priority" := Str("medium"), "blocking_level" := Str("medium")]

  /** The fields the effect sets for an item of the modal's type: title,
      description, status and both dates, plus priority and iteration for a
      requirement, priority and requirement for a task, blocking level and
      iteration for a defect. */
  function PrefillKeys(t: ItemType): seq<string> {
    ["title", "description", "status", "start_time", "end_time"] +
    (if t == RequirementType then ["priority", "iteration_id"]
     else if t == TaskType then ["priority", "requirement_id"]
     else ["blocking_level", "iteration_id"])
  }

  /** The object passed to `setFieldsValue`; the item is read as a row of
      the modal's type, so a field its own table lacks reads `undefined`. */
  function PrefillFields(item: WorkItem, t: ItemType): Record {
    FieldsOf(item, PrefillKeys(t))
  }

  /** Editing an item loads its own title, status and dates (cut at 'T'),
      whatever the modal's type. */
  lemma PrefillCommon(item: WorkItem, t: ItemType)
    ensures Get(PrefillFields(item, t), "title") == Str(item.title)
    ensures Get(PrefillFields(item, t), "status") == Str(StatusName(item.status))
    ensures Get(PrefillFields(item, t), "start_time") == DatePart(item.startTime)
    ensures Get(PrefillFields(item, t), "end_time") == DatePart(item.endTime)
  {
    var keys := PrefillKeys(t);
    assert keys[0] == "title" && keys[2] == "status" && keys[3] == "start_time" && keys[4] == "end_time";
    FieldsOfAt(item, keys, 0);
    FieldsOfAt(item, keys, 2);
    FieldsOfAt(item, keys, 3);
    FieldsOfAt(item, keys, 4);
  }

  /** Editing an item in a modal of its own type also loads the field that
      only its type has: the priority, or a defect's blocking level. */
  lemma PrefillOwnField(item: WorkItem)
    ensures item.detail.DefectDetail? ==>
      Get(PrefillFields(item, TypeOf(item)), "blocking_level") == Str(BlockingLevelName(item.detail.blockingLevel))
    ensures !item.detail.DefectDetail? ==>
      Get(PrefillFields(item, TypeOf(item)), "priority") == Str(PriorityName(item.detail.priority))
  {
    var keys := PrefillKeys(TypeOf(item));
    assert keys[5] == (if item.detail.DefectDetail? then "blocking_level" else "priority");
    FieldsOfAt(item, keys, 5);
  }

  /** The form store of the modal. */
  class WorkitemForm {
    var values: Record

    constructor()
      ensures values == InitialValues
    {
      values := InitialValues;
    }

    /** The effect on `editingItem`: `setFieldsValue` merges the item's
        fields into the store; with no item, `resetFields` restores the
        initial values. */
    method Load(editingItem: Option<WorkItem>, t: ItemType)
      modifies this
      ensures editingItem.Some? ==> values == Spread(old(values), PrefillFields(editingItem.value, t))
      ensures editingItem.None? ==> values == InitialValues
    {
      if editingItem.Some? {
        values := Spread(values, PrefillFields(editingItem.value, t));
      } else {
        values := InitialValues;
      }
    }
  }

  /** The fields a create adds: the project, the current user as creator
      and assignee, and the creation time (`now` stands for
      `new Date().toISOString()`). */
  function CreateFields(projectId: int, user: Option<User>, now: string): (r: Record)
    ensures r.Keys == {"project_id", "creator_id", "assigned_to", "created_at"}
    ensures r["creator_id"] == r["assigned_to"] == UserIdOrNull(user)
    ensures r["project_id"] == Num(projectId) && r["created_at"] == Str(now)
  {
    map["project_id" := Num(projectId), "creator_id" := UserIdOrNull(user),
        "assigned_to" := UserIdOrNull(user), "created_at" := Str(now)]
  }

  /** `handleSubmit`: nothing when validation fails; an edit passes the
      validated values unchanged; a create adds the project, creator,
      assignee and creation time, overriding form values of those names. */
  function Submitted(validated: Option<Record>, editing: bool, projectId: int, user: Option<User>, now: string): (r: Option<Record>)
    ensures validated.None? <==> r.None?
    ensures validated.Some? && editing ==> r == validated
    ensures validated.Some? && !editing ==> Overrides(validated.value, CreateFields(projectId, user, now), r.value)
  {
    match validated
    case None => None
    case Some(values) => if editing then Some(values) else Some(Spread(values, CreateFields(projectId, user, now)))
  }

  /** A created item always belongs to the modal's project and to the
      signed-in user, whatever the form held under those names. */
  lemma CreateOwnership(values: Record, projectId: int, user: Option<User>, now: string)
    ensures Submitted(Some(values), false, projectId, user, now).value["project_id"] == Num(projectId)
    ensures Submitted(Some(values), false, projectId, user, now).value["creator_id"]
         == Submitted(Some(values), false, projectId, user, now).value["assigned_to"]
    ensures user.Some? && user.value.id != "" ==>
      Submitted(Some(values), false, projectId, user, now).value["assigned_to"] == Str(user.value.id)
    ensures forall k :: k in values && k !in CreateFields(projectId, user, now) ==>
      Submitted(Some(values), false, projectId, user, now).value[k] == values[k]
  {
    var extra := CreateFields(projectId, user, now);
    assert "project_id" in extra && "creator_id" in extra && "assigned_to" in extra;
  }

  /** `getStatusOptions`: each status with its caption; defects use the
      repair wording. */
  function StatusOptions(t: ItemType): (os: seq<(string, string)>)
    ensures |os| == 3
    ensures os[0].0 == StatusName(Open) && os[1].0 == StatusName(InProgress) && os[2].0 == StatusName(Closed)
    ensures forall i :: 0 <= i < 3 ==>
      os[i].1 == (if t == DefectType then Labels.DefectStatusBadge(os[i].0).text else Labels.ListStatusTag(os[i].0).text)
  {
    if t == DefectType then [("open", "待修复"), ("in_progress", "修复中"), ("closed", "已修复")]
    else [("open", "待开始"), ("in_progress", "进行中"), ("closed", "已完成")]
  }

  /** The modal offers the same statuses, with the same captions and in the
      same order, as the inline editor of the work-item table. */
  lemma StatusOptionsAgreeWithTable(t: ItemType)
    ensures |StatusOptions(t)| == |WorkitemTable.StatusOptions(t)| == 3
    ensures forall i :: 0 <= i < 3 ==>
      WorkitemTable.StatusOptions(t)[i] == WorkitemTable.SelectOption(Str(StatusOptions(t)[i].1), Str(StatusOptions(t)[i].0))
    ensures t == DefectType <==> StatusOptions(t)[0].1 != StatusOptions(RequirementType)[0].1
  {
  }
}
