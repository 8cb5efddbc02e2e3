/** The three work-item list pages (requirements, tasks, defects). Each keeps
    the same component state: a create/edit modal backed by a form, the row
    being edited, and (requirements and defects) a detail drawer whose
    state the address bar mirrors. They differ in the fields the modal
    loads, the form defaults, the submit payload and the linked-row
    columns. */
module ListPage {
  import opened Common
  import opened Js
  import opened Schema
  import opened ItemForm
  import CreateWorkitem

  // ---- the modal's form ----

  /** The `initialValue`s of the page's form items, which `resetFields`
      restores: the defects page defaults the blocking level to 'none',
      the other two the priority to 'medium'; all start 'open'. */
  function Defaults(page: ItemType): (r: Record)
    ensures "status" in r && r["status"] == Str(StatusName(Open))
    ensures page == DefectType ==> r.Keys == {"blocking_level", "status"} && r["blocking_level"] == Str(BlockingLevelName(NoBlocking))
    ensures page != DefectType ==> r.Keys == {"priority", "status"} && r["priority"] == Str(PriorityName(Medium))
  {
    match page
    case DefectType => map["blocking_level" := Str("none"), "status" := Str("open")]
    case _ => map["priority" := Str("medium"), "status" := Str("open")]
  }

  /** The fields `showModal` loads: the same fields as the shared
      create/edit modal (title, description, status, both dates, and the
      type's own fields), and on the tasks page the assignee as well. */
  function PrefillKeys(page: ItemType): seq<string> {
    CreateWorkitem.PrefillKeys(page) + (if page == TaskType then ["assigned_to"] else [])
  }

  /** The object `showModal` passes to `setFieldsValue`. */
  function PrefillFields(page: ItemType, item: WorkItem): Record {
    FieldsOf(item, PrefillKeys(page))
  }

  /** The requirements and defects pages load exactly what the shared
      create/edit modal loads; the tasks page also loads the assignee. */
  lemma PrefillAgreesWithModal(page: ItemType, item: WorkItem)
    ensures page != TaskType ==> PrefillFields(page, item) == CreateWorkitem.PrefillFields(item, page)
    ensures page == TaskType ==>
      PrefillFields(page, item) == CreateWorkitem.PrefillFields(item, page)["assigned_to" := TextOrNull(item.assignedTo)]
  {
    if page == TaskType {
      var keys := CreateWorkitem.PrefillKeys(page);
      assert keys + ["assigned_to"] == PrefillKeys(page);
      assert keys + ["assigned_to"] != [] && (keys + ["assigned_to"])[..|keys|] == keys;
    } else {
      assert PrefillKeys(page) == CreateWorkitem.PrefillKeys(page);
    }
  }

  // ---- submitting ----

  /** `handleSubmit` of the requirements and defects pages once the form
      validated: an edit sends the values with the assignee overwritten by
      the current user (or null); a create adds the route's project id
      through `Number`, the user as creator and assignee, and the creation
      time `now`. */
  function SubmitAssigning(editing: Option<WorkItem>, validated: Option<Record>, routeProjectId: string,
      user: Option<User>, now: string): (call: PageCall)
    ensures validated.None? <==> call == NoCall
    ensures call.Update? <==> validated.Some? && editing.Some?
    ensures call.Update? ==> call.id == editing.value.id
    ensures call.Update? ==> Overrides(validated.value, map["assigned_to" := UserIdOrNull(user)], call.payload)
    ensures call.Create? ==> Overrides(validated.value,
      map["project_id" := NumberValue(ToNumber(routeProjectId)), "creator_id" := UserIdOrNull(user),
          "assigned_to" := UserIdOrNull(user), "created_at" := Str(now)], call.payload)
  {
    if validated.None? then NoCall
    else if editing.Some? then
      Update(editing.value.id, Spread(validated.value, map["assigned_to" := UserIdOrNull(user)]))
    else
      var extra := map["project_id" := NumberValue(ToNumber(routeProjectId)),
        "creator_id" := UserIdOrNull(user), "assigned_to" := UserIdOrNull(user), "created_at" := Str(now)];
      Create(Spread(validated.value, extra))
  }

  /** `handleSubmit` of the tasks page: an edit sends the validated values
      unchanged; a create adds the project id, a null creator and the
      creation time, and leaves the assignee to the form. */
  function SubmitTask(editing: Option<WorkItem>, validated: Option<Record>, routeProjectId: string, now: string): (call: PageCall)
    ensures validated.None? <==> call == NoCall
    ensures call.Update? <==> validated.Some? && editing.Some?
    ensures call.Update? ==> call.id == editing.value.id && call.payload == validated.value
    ensures call.Create? ==> Overrides(validated.value,
      map["project_id" := NumberValue(ToNumber(routeProjectId)), "creator_id" := Null, "created_at" := Str(now)], call.payload)
  {
    if validated.None? then NoCall
    else if editing.Some? then Update(editing.value.id, validated.value)
    else
      var extra := map["project_id" := NumberValue(ToNumber(routeProjectId)), "creator_id" := Null, "created_at" := Str(now)];
      Create(Spread(validated.value, extra))
  }

  /** Saving an opened requirement or defect unchanged writes back its own
      title and status, but always reassigns it to the user who saves it. */
  lemma UnchangedEditReassigns(page: ItemType, item: WorkItem, routeProjectId: string, user: Option<User>, now: string)
    requires page != TaskType
    ensures SubmitAssigning(Some(item), Some(PrefillFields(page, item)), routeProjectId, user, now).Update?
    ensures var p := SubmitAssigning(Some(item), Some(PrefillFields(page, item)), routeProjectId, user, now).payload;
      && Get(p, "title") == Str(item.title)
      && Get(p, "status") == Str(StatusName(item.status))
      && Get(p, "assigned_to") == UserIdOrNull(user)
  {
    var f := PrefillFields(page, item);
    var extra := map["assigned_to" := UserIdOrNull(user)];
    assert SubmitAssigning(Some(item), Some(f), routeProjectId, user, now) == Update(item.id, Spread(f, extra));
    PrefillAgreesWithModal(page, item);
    CreateWorkitem.PrefillCommon(item, page);
    SpreadGet(f, extra, "title");
    SpreadGet(f, extra, "status");
    SpreadGet(f, extra, "assigned_to");
  }

  /** Saving an opened task unchanged keeps its assignee, which the tasks
      modal loads and sends back as it is. */
  lemma UnchangedTaskEditKeepsAssignee(item: WorkItem, routeProjectId: string, now: string)
    ensures SubmitTask(Some(item), Some(PrefillFields(TaskType, item)), routeProjectId, now).Update?
    ensures var p := SubmitTask(Some(item), Some(PrefillFields(TaskType, item)), routeProjectId, now).payload;
      Get(p, "assigned_to") == TextOrNull(item.assignedTo)
  {
    FieldsOfAt(item, PrefillKeys(TaskType), 7);
  }

  // ---- the component ----

  /** The component state of one list page. `address` is the last address
      pushed onto the browser history. */
  class Page {
    const kind: ItemType
    var isModalVisible: bool
    var isDetailVisible: bool
    var editing: Option<WorkItem>
    var selected: Option<WorkItem>
    var form: Record
    var address: string

    constructor(kind: ItemType, pathname: string)
      ensures this.kind == kind
      ensures !isModalVisible && !isDetailVisible && editing.None? && selected.None?
      ensures form == Defaults(kind) && address == pathname
    {
      this.kind := kind;
      isModalVisible := false;
      isDetailVisible := false;
      editing := None;
      selected := None;
      form := Defaults(kind);
      address := pathname;
    }

    /** `showModal`: an existing row is loaded into the form, none resets
        it; the modal opens either way. */
    method ShowModal(item: Option<WorkItem>)
      modifies this
      ensures isModalVisible && editing == item
      ensures item.Some? ==> form == Spread(old(form), PrefillFields(kind, item.value))
      ensures item.None? ==> form == Defaults(kind)
      ensures isDetailVisible == old(isDetailVisible) && selected == old(selected) && address == old(address)
    {
      var before := form;
      editing := item;
      if item.Some? {
        form := Spread(before, PrefillFields(kind, item.value));
      } else {
        form := Defaults(kind);
      }
      isModalVisible := true;
    }

    /** `handleCancel`: the modal closes, forgets the edited row and resets. */
    method HandleCancel()
      modifies this
      ensures !isModalVisible && editing.None? && form == Defaults(kind)
      ensures isDetailVisible == old(isDetailVisible) && selected == old(selected) && address == old(address)
    {
      isModalVisible := false;
      editing := None;
      form := Defaults(kind);
    }

    /** `handleRowClick`: the drawer opens on the row and `?id=` is pushed. */
    method HandleRowClick(record: WorkItem, pathname: string)
      requires kind != TaskType
      modifies this
      ensures selected == Some(record) && isDetailVisible
      ensures address == DetailAddress(pathname, record.id)
      ensures isModalVisible == old(isModalVisible) && editing == old(editing) && form == old(form)
    {
      selected := Some(record);
      isDetailVisible := true;
      address := DetailAddress(pathname, record.id);
    }

    /** `handleDetailClose`: the drawer closes and the bare path is pushed. */
    method HandleDetailClose(pathname: string)
      requires kind != TaskType
      modifies this
      ensures !isDetailVisible && selected.None? && address == pathname
      ensures isModalVisible == old(isModalVisible) && editing == old(editing) && form == old(form)
    {
      isDetailVisible := false;
      selected := None;
      address := pathname;
    }
  }

  /** Opening a row and closing the drawer again leaves the drawer as it
      was before: closed, with nothing selected, at the bare path. */
  method RowClickThenClose(page: Page, record: WorkItem, pathname: string)
    requires page.kind != TaskType && !page.isDetailVisible && page.selected.None? && page.address == pathname
    modifies page
    ensures !page.isDetailVisible && page.selected.None? && page.address == pathname
    ensures page.form == old(page.form) && page.editing == old(page.editing)
  {
    page.HandleRowClick(record, pathname);
    page.HandleDetailClose(pathname);
  }

  // ---- the columns ----

  /** The defects page's iteration column: '-' without an iteration, the
      iteration (shown as its date range) when loaded, else the raw id. */
  function IterationCell(defect: WorkItem, iterations: Option<seq<Iteration>>): (c: LinkCell<Iteration>)
    ensures defect.iterationId.None? || defect.iterationId == Some(0) <==> c.Dash?
    ensures c.Linked? ==> Some(c.target.id) == defect.iterationId
    ensures c.RawId? ==> Some(c.id) == defect.iterationId
  {
    LinkCellOf(defect.iterationId, iterations, (it: Iteration) => it.id)
  }

  /** The tasks page's requirement column: '-' without a requirement, the
      requirement (shown as its title) when loaded, else the raw id. */
  function RequirementCell(task: WorkItem, requirements: Option<seq<WorkItem>>): (c: LinkCell<WorkItem>)
    requires task.detail.TaskDetail?
    ensures task.detail.requirementId.None? || task.detail.requirementId == Some(0) <==> c.Dash?
    ensures c.Linked? ==> Some(c.target.id) == task.detail.requirementId && requirements.Some? && c.target in requirements.value
    ensures c.RawId? ==> Some(c.id) == task.detail.requirementId
  {
    var c := LinkCellOf(task.detail.requirementId, requirements, (r: WorkItem) => r.id);
    if c.Linked? then
      assert requirements.Some?;
      var i :| 0 <= i < |requirements.value| && requirements.value[i] == c.target;
      c
    else c
  }

  /** The tasks page's date columns: '-' for a missing or empty time;
      otherwise the time, which the page formats for the locale. */
  function DateCell(time: Option<string>): (shown: Option<string>)
    ensures shown.None? <==> time.None? || time == Some("")
    ensures shown.Some? ==> time == shown
  {
    if time.Some? && time.value != "" then time else None
  }
}
