/** The editable work-item table: one row at a time can be edited
    (`editingKey`), the columns are assembled from the shared base columns and
    the type's own columns, and each editable cell gets an input and, for
    selects, its options. */
module WorkitemTable {
  import opened Common
  import opened Js
  import opened Schema
  import opened Labels
  import opened ItemForm

  // ---- columns ----

  datatype Column = Column(key: string, editable: bool)

  const IdColumn := Column("id", false)
  const TitleColumn := Column("title", true)
  const AssigneeColumn := Column("assigned_to", false)
  const CreatedColumn := Column("created_at", false)
  const ActionColumn := Column("action", false)

  /** `baseColumns`: id, title (editable), assignee, creation time. */
  const BaseColumns: seq<Column> := [IdColumn, TitleColumn, AssigneeColumn, CreatedColumn]

  /** `typeSpecificColumns`, all editable. */
  function TypeColumns(t: ItemType): (cs: seq<Column>)
    ensures forall c :: c in cs ==> c.editable
  {
    match t
    case RequirementType => [Column("priority", true), Column("status", true)]
    case TaskType => [Column("priority", true), Column("status", true), Column("requirement_id", true)]
    case DefectType => [Column("blocking_level", true), Column("status", true), Column("iteration_id", true)]
  }

  /** `mergedColumns`, before the per-cell settings are attached. */
  function MergedColumns(t: ItemType): (cs: seq<Column>)
    ensures |cs| == |BaseColumns| + |TypeColumns(t)| + 1 && cs[|cs| - 1] == ActionColumn
  {
    BaseColumns[..2] + TypeColumns(t) + BaseColumns[2..] + [ActionColumn]
  }

  function Keys(cs: seq<Column>): (ks: seq<string>)
    ensures |ks| == |cs| && forall i :: 0 <= i < |cs| ==> ks[i] == cs[i].key
  {
    if cs == [] then [] else [cs[0].key] + Keys(cs[1..])
  }

  function EditableKeys(cs: seq<Column>): (ks: seq<string>)
  {
    if cs == [] then [] else (if cs[0].editable then [cs[0].key] else []) + EditableKeys(cs[1..])
  }

  lemma {:induction false} EditableKeysAppend(a: seq<Column>, b: seq<Column>)
    ensures EditableKeys(a + b) == EditableKeys(a) + EditableKeys(b)
  {
    if a == [] {
      assert a + b == b;
    } else {
      assert (a + b)[0] == a[0];
      assert (a + b)[1..] == a[1..] + b;
      EditableKeysAppend(a[1..], b);
    }
  }

  lemma {:induction false} EditableKeysAllEditable(cs: seq<Column>)
    requires forall c :: c in cs ==> c.editable
    ensures EditableKeys(cs) == Keys(cs)
  {
    if cs != [] {
      assert cs[0] in cs;
      EditableKeysAllEditable(cs[1..]);
    }
  }

  /** The columns read id, title, the type's columns, assignee, creation
      time and the actions; every table has a status column. */
  lemma MergedColumnsOrder(t: ItemType)
    ensures var cs := MergedColumns(t);
      && |cs| == 5 + |TypeColumns(t)|
      && cs[0] == IdColumn && cs[1] == TitleColumn
      && cs[2..2 + |TypeColumns(t)|] == TypeColumns(t)
      && cs[|cs| - 3] == AssigneeColumn && cs[|cs| - 2] == CreatedColumn && cs[|cs| - 1] == ActionColumn
      && cs[3] == Column("status", true)
  {
    assert MergedColumns(t) == [IdColumn, TitleColumn] + TypeColumns(t) + [AssigneeColumn, CreatedColumn, ActionColumn];
  }

  /** The editable cells are the title followed by the type's columns. */
  lemma MergedColumnsEditable(t: ItemType)
    ensures EditableKeys(MergedColumns(t)) == ["title"] + Keys(TypeColumns(t))
  {
    var ts := TypeColumns(t);
    var head, tail := [IdColumn, TitleColumn], [AssigneeColumn, CreatedColumn, ActionColumn];
    assert MergedColumns(t) == head + ts + tail;
    EditableKeysAppend(head, ts);
    EditableKeysAppend(head + ts, tail);
    EditableKeysAllEditable(ts);
    assert EditableKeys(head) == ["title"] by {
      assert head[1..][1..] == [];
    }
    assert EditableKeys(tail) == [] by {
      assert tail[1..][1..][1..] == [];
      assert EditableKeys(tail[1..][1..]) == [];
      assert EditableKeys(tail[1..]) == [];
    }
  }

  // ---- editable cells ----

  /** `['title', 'status'].includes(dataIndex)`: the only required cells. */
  predicate Required(dataIndex: string) {
    dataIndex in ["title", "status"]
  }

  /** Of the editable cells of every table, exactly title and status are
      required. */
  lemma RequiredCells(t: ItemType)
    ensures forall k :: k in EditableKeys(MergedColumns(t)) && Required(k) <==> k == "title" || k == "status"
  {
    MergedColumnsEditable(t);
    assert Keys(TypeColumns(t))[1] == "status";
  }

  datatype InputType = TextInput | TextAreaInput | SelectInput | DateInput

  datatype SelectOption = SelectOption(caption: Value, value: Value)

  /** An element of `relatedItems`: a requirement (for the task table) or an
      iteration (for the defect table). Iteration rows have no `name`
      column, so `name` reads `undefined` for them. */
  datatype RelatedItem = RelatedItem(id: int, title: string, name: Value)

  datatype CellConfig = CellConfig(inputType: InputType, options: Option<seq<SelectOption>>)

  function StatusOptions(t: ItemType): (os: seq<SelectOption>)
    ensures |os| == 3
  {
    if t == DefectType then
      [SelectOption(Str("待修复"), Str("open")), SelectOption(Str("修复中"), Str("in_progress")), SelectOption(Str("已修复"), Str("closed"))]
    else
      [SelectOption(Str("待开始"), Str("open")), SelectOption(Str("进行中"), Str("in_progress")), SelectOption(Str("已完成"), Str("closed"))]
  }

  const PriorityOptions: seq<SelectOption> :=
    [SelectOption(Str("高"), Str("high")), SelectOption(Str("中"), Str("medium")), SelectOption(Str("低"), Str("low"))]

  const BlockingOptions: seq<SelectOption> :=
    [SelectOption(Str("高"), Str("high")), SelectOption(Str("中"), Str("medium")),
     SelectOption(Str("低"), Str("low")), SelectOption(Str("无"), Str("none"))]

  /** `relatedItems.map(...)` for the requirement select. */
  function RequirementOptions(related: seq<RelatedItem>): (os: seq<SelectOption>)
    ensures |os| == |related|
    ensures forall i :: 0 <= i < |os| ==> os[i].value == Num(related[i].id)
    ensures forall i :: 0 <= i < |os| ==> os[i].caption == Str("#" + IntString(related[i].id) + " " + related[i].title)
  {
    if related == [] then []
    else
      [SelectOption(Str("#" + IntString(related[0].id) + " " + related[0].title), Num(related[0].id))]
      + RequirementOptions(related[1..])
  }

  /** `relatedItems.map(...)` for the iteration select. */
  function IterationOptions(related: seq<RelatedItem>): (os: seq<SelectOption>)
    ensures |os| == |related|
    ensures forall i :: 0 <= i < |os| ==> os[i] == SelectOption(related[i].name, Num(related[i].id))
  {
    if related == [] then [] else [SelectOption(related[0].name, Num(related[0].id))] + IterationOptions(related[1..])
  }

  /** The input and options attached to an editable column. */
  function CellFor(dataIndex: string, t: ItemType, related: Option<seq<RelatedItem>>): (c: CellConfig)
    ensures c.options.Some? <==> c.inputType == SelectInput
    ensures c.inputType != DateInput
    ensures dataIndex in ["status", "priority", "blocking_level"] ==> c.inputType == SelectInput
    ensures c.inputType == SelectInput ==>
      dataIndex in ["status", "priority", "blocking_level", "requirement_id", "iteration_id"]
    ensures dataIndex == "status" ==> c.options == Some(StatusOptions(t))
    ensures dataIndex == "priority" ==> c.options == Some(PriorityOptions)
    ensures dataIndex == "blocking_level" ==> c.options == Some(BlockingOptions)
    ensures dataIndex in ["requirement_id", "iteration_id"] ==> (c.inputType == SelectInput <==> related.Some?)
    ensures dataIndex == "requirement_id" && related.Some? ==> c.options == Some(RequirementOptions(related.value))
    ensures dataIndex == "iteration_id" && related.Some? ==> c.options == Some(IterationOptions(related.value))
    ensures c.inputType == TextAreaInput <==> dataIndex == "description"
  {
    if dataIndex == "status" then CellConfig(SelectInput, Some(StatusOptions(t)))
    else if dataIndex == "priority" then CellConfig(SelectInput, Some(PriorityOptions))
    else if dataIndex == "blocking_level" then CellConfig(SelectInput, Some(BlockingOptions))
    else if dataIndex == "requirement_id" && related.Some? then CellConfig(SelectInput, Some(RequirementOptions(related.value)))
    else if dataIndex == "iteration_id" && related.Some? then CellConfig(SelectInput, Some(IterationOptions(related.value)))
    else if dataIndex == "description" then CellConfig(TextAreaInput, None)
    else CellConfig(TextInput, None)
  }

  /** The status select offers each of the three statuses once, captioned
      with the text the same table renders for it: the defect badge text for
      defects, the list tag otherwise. */
  lemma StatusOptionsMatchLabels(t: ItemType, related: Option<seq<RelatedItem>>)
    ensures CellFor("status", t, related) == CellConfig(SelectInput, Some(StatusOptions(t)))
    ensures forall s: Status :: SelectOption(StatusCaption(t, StatusName(s)), Str(StatusName(s))) in StatusOptions(t)
    ensures forall i, j :: 0 <= i < j < 3 ==> StatusOptions(t)[i].value != StatusOptions(t)[j].value
  {
    forall s: Status ensures SelectOption(StatusCaption(t, StatusName(s)), Str(StatusName(s))) in StatusOptions(t) {
      if s == Open {
        assert StatusOptions(t)[0] == SelectOption(StatusCaption(t, StatusName(s)), Str(StatusName(s)));
      } else if s == InProgress {
        assert StatusOptions(t)[1] == SelectOption(StatusCaption(t, StatusName(s)), Str(StatusName(s)));
      } else {
        assert StatusOptions(t)[2] == SelectOption(StatusCaption(t, StatusName(s)), Str(StatusName(s)));
      }
    }
  }

  /** The text the status column of the same table renders. */
  function StatusCaption(t: ItemType, status: string): Value {
    Str(if t == DefectType then DefectStatusBadge(status).text else ListStatusTag(status).text)
  }

  /** The priority and blocking-level selects offer every enum value once,
      each labelled with the text of the tag the column renders for it. */
  lemma EnumOptionsMatchTags()
    ensures |PriorityOptions| == 3 && |BlockingOptions| == 4
    ensures forall p: Priority :: SelectOption(Str(PriorityTag(Str(PriorityName(p))).text), Str(PriorityName(p))) in PriorityOptions
    ensures forall b: BlockingLevel :: SelectOption(Str(BlockingTag(Str(BlockingLevelName(b))).text), Str(BlockingLevelName(b))) in BlockingOptions
    ensures forall i, j :: 0 <= i < j < |PriorityOptions| ==> PriorityOptions[i].value != PriorityOptions[j].value
    ensures forall i, j :: 0 <= i < j < |BlockingOptions| ==> BlockingOptions[i].value != BlockingOptions[j].value
  {
    forall p: Priority
      ensures SelectOption(Str(PriorityTag(Str(PriorityName(p))).text), Str(PriorityName(p))) in PriorityOptions
    {
      var i := match p case High => 0 case Medium => 1 case Low => 2;
      assert PriorityOptions[i] == SelectOption(Str(PriorityTag(Str(PriorityName(p))).text), Str(PriorityName(p)));
    }
    forall b: BlockingLevel
      ensures SelectOption(Str(BlockingTag(Str(BlockingLevelName(b))).text), Str(BlockingLevelName(b))) in BlockingOptions
    {
      var i := match b case HighBlocking => 0 case MediumBlocking => 1 case LowBlocking => 2 case NoBlocking => 3;
      assert BlockingOptions[i] == SelectOption(Str(BlockingTag(Str(BlockingLevelName(b))).text), Str(BlockingLevelName(b)));
    }
  }

  // ---- the edit lock ----

  /** The fields `edit` puts into the form: title, status and description,
      plus priority for requirements, priority and requirement id for tasks,
      blocking level and iteration id for defects. */
  function EditKeys(t: ItemType): seq<string> {
    ["title", "status", "description"] +
    (if t == RequirementType then ["priority"]
     else if t == TaskType then ["priority", "requirement_id"]
     else ["blocking_level", "iteration_id"])
  }

  /** The values `edit` puts into the form, each read from the row as an
      object (none of them is a date, so none is cut). */
  function EditFields(record: WorkItem, t: ItemType): (r: Record)
    ensures forall k :: k in r <==> k in EditKeys(t)
    ensures forall k :: k in r ==> r[k] == FormValue(record, k)
  {
    FieldsOf(record, EditKeys(t))
  }

  /** Editing fills the title and status with the row's own values. */
  lemma EditFieldsCommon(record: WorkItem, t: ItemType)
    ensures Get(EditFields(record, t), "title") == Str(record.title)
    ensures Get(EditFields(record, t), "status") == Str(StatusName(record.status))
  {
    var keys := EditKeys(t);
    assert keys[0] == "title" && keys[1] == "status";
    FieldsOfAt(record, keys, 0);
    FieldsOfAt(record, keys, 1);
  }

  /** In the table of its own type, a row's type fields are filled with its
      values. */
  lemma EditFieldsOwnType(record: WorkItem)
    ensures var t := TypeOf(record);
      && (t != DefectType ==> Get(EditFields(record, t), "priority") == Str(PriorityName(record.detail.priority)))
      && (t == TaskType ==> Get(EditFields(record, t), "requirement_id") == NumberOrNull(record.detail.requirementId))
      && (t == DefectType ==> Get(EditFields(record, t), "blocking_level") == Str(BlockingLevelName(record.detail.blockingLevel)))
  {
    var t := TypeOf(record);
    var keys := EditKeys(t);
    assert keys[3] == (if t == DefectType then "blocking_level" else "priority");
    FieldsOfAt(record, keys, 3);
    if t == TaskType {
      assert keys[4] == "requirement_id";
      FieldsOfAt(record, keys, 4);
    }
  }

  /** A requirement or task shown in the defect table gets `undefined` as
      its blocking level. */
  lemma EditFieldsBlockingOfOtherType(record: WorkItem)
    requires TypeOf(record) != DefectType
    ensures Get(EditFields(record, DefectType), "blocking_level") == Undefined
  {
    FieldsOfAt(record, EditKeys(DefectType), 3);
  }

  /** A defect shown in the requirement or task table gets `undefined` as
      its priority. */
  lemma EditFieldsPriorityOfDefect(record: WorkItem, t: ItemType)
    requires TypeOf(record) == DefectType && t != DefectType
    ensures Get(EditFields(record, t), "priority") == Undefined
  {
    FieldsOfAt(record, EditKeys(t), 3);
  }

  /** `/project/${projectId}/${itemType}s?id=${record.id}` */
  function DetailUrl(projectId: string, t: ItemType, id: int): (u: string)
    ensures u == DetailAddress("/project/" + projectId + "/" + ItemTypeName(t) + "s", id)
  {
    "/project/" + projectId + "/" + ItemTypeName(t) + "s?id=" + IntString(id)
  }

  class EditableTable {
    /** The id of the row being edited, or none. */
    var editingKey: Option<int>
    /** The values of the inline-edit form. */
    var form: Record

    constructor()
      ensures editingKey.None? && form == map[]
    {
      editingKey := None;
      form := map[];
    }

    /** `isEditing`: a row is in edit mode exactly when it is the edited row. */
    predicate IsEditing(record: WorkItem)
      reads this
    {
      editingKey == Some(record.id)
    }

    /** The edit buttons are disabled while any row is edited. */
    predicate EditButtonDisabled()
      reads this
      ensures EditButtonDisabled() <==> editingKey.Some?
    {
      editingKey.Some?
    }

    /** `edit`: the row's fields are written into the form (other form
        values stay) and the row becomes the edited one. */
    method Edit(record: WorkItem, t: ItemType)
      modifies this
      ensures form == old(form) + EditFields(record, t)
      ensures editingKey == Some(record.id) && IsEditing(record)
    {
      form := form + EditFields(record, t);
      editingKey := Some(record.id);
    }

    /** `cancel` */
    method Cancel()
      modifies this
      ensures editingKey.None? && form == old(form)
    {
      editingKey := None;
    }

    /** `save`: the form's validation result (`validated`, none when a
        required field is empty) decides; a valid row is sent as the update of
        the record and ends editing, an invalid one changes nothing. */
    method Save(record: WorkItem, validated: Option<Record>) returns (update: Option<(int, Record)>)
      modifies this
      ensures validated.Some? ==> update == Some((record.id, validated.value)) && editingKey.None?
      ensures validated.None? ==> update.None? && editingKey == old(editingKey)
      ensures form == old(form)
    {
      if validated.None? {
        return None;
      }
      update := Some((record.id, validated.value));
      editingKey := None;
    }

    /** `handleRowClick`: opens the detail only while no row is edited. */
    method RowClick(record: WorkItem, projectId: string, t: ItemType) returns (navigate: Option<string>)
      ensures editingKey.None? <==> navigate.Some?
      ensures navigate.Some? ==> navigate.value == DetailUrl(projectId, t, record.id)
    {
      if editingKey.None? {
        return Some(DetailUrl(projectId, t, record.id));
      }
      return None;
    }

    /** `handleRowDoubleClick`: starts editing only while no row is edited. */
    method RowDoubleClick(record: WorkItem, t: ItemType)
      modifies this
      ensures old(editingKey).None? ==> editingKey == Some(record.id) && form == old(form) + EditFields(record, t)
      ensures old(editingKey).Some? ==> editingKey == old(editingKey) && form == old(form)
    {
      if editingKey.None? {
        Edit(record, t);
      }
    }
  }
}
