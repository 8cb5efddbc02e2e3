/** The work-item detail drawer: what it shows for an item of the type the
    page passes in. */
module DetailDrawer {
  import opened Common
  import opened Js
  import opened Schema
  import opened Labels
  import ListPage

  /** The header's type badge. */
  datatype TypeInfo = TypeInfo(title: string, color: string)

  /** `getItemTypeInfo` */
  function TypeInfoOf(t: ItemType): (info: TypeInfo)
    ensures t == RequirementType ==> info == TypeInfo("需求", "#1677ff")
    ensures t == TaskType ==> info == TypeInfo("任务", "#52c41a")
    ensures t == DefectType ==> info == TypeInfo("缺陷", "#f5222d")
  {
    match t
    case RequirementType => TypeInfo("需求", "#1677ff")
    case TaskType => TypeInfo("任务", "#52c41a")
    case DefectType => TypeInfo("缺陷", "#f5222d")
  }

  /** The three types wear three different badges. */
  lemma TypeInfoDistinct(a: ItemType, b: ItemType)
    requires a != b
    ensures TypeInfoOf(a).title != TypeInfoOf(b).title && TypeInfoOf(a).color != TypeInfoOf(b).color
  {
  }

  /** `getItemTypeSpecificFields`: the priority, the priority and the
      linked requirement, or the blocking level. */
  datatype TypeFields =
    | PriorityField(priority: Tag)
    | TaskFields(priority: Tag, requirement: string)
    | BlockingField(blockingLevel: Tag)

  /** The person in charge: the avatar letter and the name, or '未分配'. */
  datatype Assignee = Unassigned | Assigned(initial: string, name: string)

  /** Everything the drawer shows. The three times are shown formatted for
      the locale, or '-' (here `None`). */
  datatype DrawerView = DrawerView(
    typeInfo: TypeInfo,
    status: Tag,
    title: string,
    description: string,
    id: int,
    fields: TypeFields,
    assignee: Assignee,
    createdAt: Option<string>,
    startTime: Option<string>,
    endTime: Option<string>)

  const NoDescription := "无描述信息"

  /** `task.requirement_id || '-'` */
  function RequirementText(v: Value): (t: string)
    ensures v.Num? && v.n != 0 ==> t == IntString(v.n)
    ensures !(v.Num? && v.n != 0) ==> t == "-"
  {
    if v.Num? && v.n != 0 then IntString(v.n) else "-"
  }

  /** The type-specific fields, read from the row as the page's type sees
      it: a column the row does not have reads as undefined. */
  function TypeFieldsOf(t: ItemType, d: Detail): (f: TypeFields)
    ensures t == RequirementType ==> f == PriorityField(PriorityTag(Get(DetailRecord(d), "priority")))
    ensures t == TaskType ==> f == TaskFields(PriorityTag(Get(DetailRecord(d), "priority")),
      RequirementText(Get(DetailRecord(d), "requirement_id")))
    ensures t == DefectType ==> f == BlockingField(BlockingTag(Get(DetailRecord(d), "blocking_level")))
  {
    var row := DetailRecord(d);
    match t
    case RequirementType => PriorityField(PriorityTag(Get(row, "priority")))
    case TaskType => TaskFields(PriorityTag(Get(row, "priority")), RequirementText(Get(row, "requirement_id")))
    case DefectType => BlockingField(BlockingTag(Get(row, "blocking_level")))
  }

  /** `workItem.assigned_to ? <avatar, name> : '未分配'` */
  function AssigneeOf(assignedTo: Option<string>): (a: Assignee)
    ensures a.Unassigned? <==> assignedTo.None? || assignedTo.value == ""
    ensures a.Assigned? ==> a.name == assignedTo.value && a.initial == [UpperChar(assignedTo.value[0])]
  {
    if assignedTo.Some? && assignedTo.value != "" then Assigned(InitialUpper(assignedTo.value), assignedTo.value)
    else Unassigned
  }

  /** The drawer renders nothing without an item; otherwise the badge of
      the page's type, the status tag, the title, the description or
      '无描述信息', the type-specific fields and the assignee. */
  function View(workItem: Option<WorkItem>, itemType: ItemType): (v: Option<DrawerView>)
    ensures v.None? <==> workItem.None?
    ensures v.Some? ==> v.value.typeInfo == TypeInfoOf(itemType)
    ensures v.Some? ==> v.value.status == Tag(StatusText(StatusName(workItem.value.status)),
      StatusColor(StatusName(workItem.value.status)))
    ensures v.Some? ==> v.value.title == workItem.value.title && v.value.id == workItem.value.id
    ensures v.Some? ==> (v.value.description == NoDescription <==>
      workItem.value.description.None? || workItem.value.description.value == "" || workItem.value.description.value == NoDescription)
    ensures v.Some? && workItem.value.description.Some? && workItem.value.description.value != "" ==>
      v.value.description == workItem.value.description.value
    ensures v.Some? ==> v.value.fields == TypeFieldsOf(itemType, workItem.value.detail)
    ensures v.Some? ==> v.value.assignee == AssigneeOf(workItem.value.assignedTo)
    ensures v.Some? ==> v.value.createdAt == ListPage.DateCell(workItem.value.createdAt)
    ensures v.Some? ==> v.value.startTime == ListPage.DateCell(workItem.value.startTime)
    ensures v.Some? ==> v.value.endTime == ListPage.DateCell(workItem.value.endTime)
  {
    if workItem.None? then None
    else
      var w := workItem.value;
      var description := if w.description.Some? && w.description.value != "" then w.description.value else NoDescription;
      Some(DrawerView(TypeInfoOf(itemType), Tag(StatusText(StatusName(w.status)), StatusColor(StatusName(w.status))),
        w.title, description, w.id, TypeFieldsOf(itemType, w.detail), AssigneeOf(w.assignedTo),
        ListPage.DateCell(w.createdAt), ListPage.DateCell(w.startTime), ListPage.DateCell(w.endTime)))
  }

  /** For an item of the page's own type, the drawer shows the item's own
      priority, linked requirement or blocking level; a known status gets
      its fixed label, never the raw text. */
  lemma ViewOfOwnType(w: WorkItem)
    ensures var v := View(Some(w), TypeOf(w)).value;
      && (w.detail.RequirementDetail? ==> v.fields == PriorityField(PriorityTag(Str(PriorityName(w.detail.priority)))))
      && (w.detail.TaskDetail? ==> v.fields == TaskFields(PriorityTag(Str(PriorityName(w.detail.priority))),
            RequirementText(NumberOrNull(w.detail.requirementId))))
      && (w.detail.DefectDetail? ==> v.fields == BlockingField(BlockingTag(Str(BlockingLevelName(w.detail.blockingLevel)))))
      && v.status.text != StatusName(w.status)
  {
  }

  /** An item shown under another type's drawer loses its type fields: a
      defect under the requirement drawer shows priority '低', a requirement
      or task under the defect drawer shows blocking level '无'. */
  lemma ViewOfOtherType(w: WorkItem)
    ensures w.detail.DefectDetail? ==> View(Some(w), RequirementType).value.fields == PriorityField(Tag("低", "green"))
    ensures !w.detail.DefectDetail? ==> View(Some(w), DefectType).value.fields == BlockingField(Tag("无", "green"))
  {
  }
}
