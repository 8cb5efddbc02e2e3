/** The tools the AI agent calls to create, read and update requirements,
    tasks and defects and to create iterations and fill them. Each tool
    builds one request from its input, and wraps the outcome in a
    `{success, ...}` envelope instead of throwing. */
module AgentTools {
  import opened Common
  import opened Js
  import opened Schema

  // ---- the envelope ----

  /** `{ success: true, <result> }` or `{ success: false, error }`. */
  datatype ToolResult<+T> = Succeeded(value: T) | Failed(error: string)

  /** The `try { ... } catch (error) { return { success: false, error:
      error.message } }` around every tool: a result becomes a success, a
      thrown error a failure carrying its message; nothing escapes. */
  function Envelope<T>(o: Outcome<T>): (r: ToolResult<T>)
    ensures r.Succeeded? <==> o.Done?
    ensures r.Succeeded? ==> r.value == o.result
    ensures r.Failed? ==> r.error == o.message
  {
    match o
    case Done(x) => Succeeded(x)
    case Threw(m) => Failed(m)
  }

  /** An optional text argument as the value it puts in a request. */
  function OptText(o: Option<string>): (v: Value)
    ensures o.None? ==> v == Undefined
    ensures o.Some? ==> v == Str(o.value)
  {
    if o.Some? then Str(o.value) else Undefined
  }

  // ---- create ----

  /** The input of `createRequirement`, `createTask` and `createDefect`.
      The enum arguments can only hold enum values (the input schema
      rejects anything else before the tool runs). */
  datatype CreateInput = CreateInput(
    projectId: string,
    title: string,
    description: Option<string>,
    assignee: Option<string>,
    priority: Option<Priority>,
    blockingLevel: Option<BlockingLevel>,
    status: Option<Status>)

  /** `context.status || 'open'` */
  function StatusOrOpen(s: Option<Status>): (r: Status)
    ensures s.Some? ==> r == s.value
    ensures s.None? ==> r == Open
  {
    if s.Some? then s.value else Open
  }

  /** `context.priority || 'medium'` */
  function PriorityOrMedium(p: Option<Priority>): (r: Priority)
    ensures p.Some? ==> r == p.value
    ensures p.None? ==> r == Medium
  {
    if p.Some? then p.value else Medium
  }

  /** `context.blocking_level || 'low'` */
  function BlockingOrLow(b: Option<BlockingLevel>): (r: BlockingLevel)
    ensures b.Some? ==> r == b.value
    ensures b.None? ==> r == LowBlocking
  {
    if b.Some? then b.value else LowBlocking
  }

  /** The row `createRequirement` and `createTask` insert: the project id
      through `Number`, the title and description as given, a priority and
      a status. A task's assignee argument has no place in it. */
  datatype NewRow = NewRow(projectId: JsNumber, title: string, description: Option<string>,
    priority: Priority, status: Status)

  /** The row `createDefect` inserts, with a blocking level instead of a
      priority. */
  datatype NewDefectRow = NewDefectRow(projectId: JsNumber, title: string, description: Option<string>,
    blockingLevel: BlockingLevel, status: Status)

  /** `createRequirement` / `createTask`: the given priority and status, or
      'medium' and 'open'. */
  function CreateRow(input: CreateInput): (r: NewRow)
    ensures r.projectId == ToNumber(input.projectId) && r.title == input.title && r.description == input.description
    ensures input.priority.Some? ==> r.priority == input.priority.value
    ensures input.priority.None? ==> r.priority == Medium
    ensures input.status.Some? ==> r.status == input.status.value
    ensures input.status.None? ==> r.status == Open
  {
    NewRow(ToNumber(input.projectId), input.title, input.description,
      PriorityOrMedium(input.priority), StatusOrOpen(input.status))
  }

  /** `createDefect`: the given blocking level and status, or 'low' and
      'open'. */
  function CreateDefectRow(input: CreateInput): (r: NewDefectRow)
    ensures r.projectId == ToNumber(input.projectId) && r.title == input.title && r.description == input.description
    ensures input.blockingLevel.Some? ==> r.blockingLevel == input.blockingLevel.value
    ensures input.blockingLevel.None? ==> r.blockingLevel == LowBlocking
    ensures input.status.Some? ==> r.status == input.status.value
    ensures input.status.None? ==> r.status == Open
  {
    NewDefectRow(ToNumber(input.projectId), input.title, input.description,
      BlockingOrLow(input.blockingLevel), StatusOrOpen(input.status))
  }

  /** A project id the agent writes out as decimal text reaches the row
      unchanged. */
  lemma CreateRowProject(input: CreateInput, n: nat)
    requires input.projectId == DecimalString(n)
    ensures CreateRow(input).projectId == Finite(n) && CreateDefectRow(input).projectId == Finite(n)
  {
    NumberOfDecimal(n);
  }

  // ---- update ----

  /** `if (x) updates.k = x`, field after field: every value the update
      holds is truthy. */
  function TruthyOnly(fields: seq<(string, Value)>): (r: Record)
    ensures forall k :: k in r ==> Truthy(r[k])
  {
    if fields == [] then map[]
    else
      var last := fields[|fields| - 1];
      var rest := TruthyOnly(fields[..|fields| - 1]);
      if Truthy(last.1) then rest[last.0 := last.1] else rest
  }

  /** Only the truthy arguments reach the update, so an omitted or empty
      argument never does; and every truthy argument's field is there. */
  lemma {:induction false} TruthyOnlySound(fields: seq<(string, Value)>)
    ensures forall k :: k in TruthyOnly(fields) ==> Truthy(TruthyOnly(fields)[k]) && (k, TruthyOnly(fields)[k]) in fields
    ensures forall i :: 0 <= i < |fields| && Truthy(fields[i].1) ==> fields[i].0 in TruthyOnly(fields)
  {
    if fields != [] {
      var init := fields[..|fields| - 1];
      TruthyOnlySound(init);
      assert forall i :: 0 <= i < |init| ==> init[i] == fields[i];
      assert fields == init + [fields[|fields| - 1]];
    }
  }

  /** One more `if`: the update of a longer argument list extends that of
      its prefix by the last field when that field is truthy. */
  lemma TruthyOnlyStep(fields: seq<(string, Value)>, n: nat)
    requires n < |fields|
    ensures TruthyOnly(fields[..n + 1]) ==
      if Truthy(fields[n].1) then TruthyOnly(fields[..n])[fields[n].0 := fields[n].1] else TruthyOnly(fields[..n])
  {
    assert fields[..n + 1][..n] == fields[..n];
  }

  predicate DistinctKeys(fields: seq<(string, Value)>) {
    forall i, j :: 0 <= i < j < |fields| ==> fields[i].0 != fields[j].0
  }

  /** With distinct field names, a field is in the update exactly when its
      argument is truthy, and then with that argument's value. */
  lemma TruthyOnlyExact(fields: seq<(string, Value)>, i: nat)
    requires DistinctKeys(fields) && i < |fields|
    ensures fields[i].0 in TruthyOnly(fields) <==> Truthy(fields[i].1)
    ensures fields[i].0 in TruthyOnly(fields) ==> TruthyOnly(fields)[fields[i].0] == fields[i].1
  {
    TruthyOnlySound(fields);
    var r := TruthyOnly(fields);
    var k := fields[i].0;
    if k in r {
      var j :| 0 <= j < |fields| && fields[j] == (k, r[k]);
      assert j == i;
    }
  }

  /** An enum argument as the name it is stored under; the input schema
      admits only the enum's names, so a given one is never empty. */
  function OptPriority(p: Option<Priority>): (v: Value)
    ensures p.None? ==> v == Undefined
    ensures p.Some? ==> v == Str(PriorityName(p.value)) && Truthy(v)
  {
    if p.Some? then Str(PriorityName(p.value)) else Undefined
  }

  function OptStatus(st: Option<Status>): (v: Value)
    ensures st.None? ==> v == Undefined
    ensures st.Some? ==> v == Str(StatusName(st.value)) && Truthy(v)
  {
    if st.Some? then Str(StatusName(st.value)) else Undefined
  }

  function OptBlocking(b: Option<BlockingLevel>): (v: Value)
    ensures b.None? ==> v == Undefined
    ensures b.Some? ==> v == Str(BlockingLevelName(b.value)) && Truthy(v)
  {
    if b.Some? then Str(BlockingLevelName(b.value)) else Undefined
  }

  /** The columns the `Update` type of each work-item table admits. */
  function UpdateColumns(t: ItemType): set<string> {
    {"assigned_to", "created_at", "creator_id", "description", "end_time", "id",
     "iteration_id", "project_id", "start_time", "status", "title"}
    + (match t
       case RequirementType => {"priority"}
       case TaskType => {"priority", "requirement_id"}
       case DefectType => {"blocking_level"})
  }

  /** The arguments of `updateRequirementTool`, `updateTaskTool` and
      `updateDefectTool`; each tool reads the ones its schema declares. */
  datatype UpdateInput = UpdateInput(
    itemId: string, title: Option<string>, description: Option<string>, assignee: Option<string>,
    priority: Option<Priority>, blockingLevel: Option<BlockingLevel>, status: Option<Status>)

  /** The `if`s of `updateRequirementTool`, in order. */
  function RequirementUpdateFields(u: UpdateInput): seq<(string, Value)> {
    [("title", OptText(u.title)), ("description", OptText(u.description)),
     ("priority", OptPriority(u.priority)), ("status", OptStatus(u.status))]
  }

  /** The `if`s of `updateDefectTool`, in order. */
  function DefectUpdateFields(u: UpdateInput): seq<(string, Value)> {
    [("title", OptText(u.title)), ("description", OptText(u.description)),
     ("blocking_level", OptBlocking(u.blockingLevel)), ("status", OptStatus(u.status))]
  }

  /** The `if`s of `updateTaskTool` as written: the assignee goes under the
      key `assignee`. */
  function TaskUpdateFieldsAsWritten(u: UpdateInput): seq<(string, Value)> {
    [("title", OptText(u.title)), ("description", OptText(u.description)),
     ("assignee", OptText(u.assignee)), ("priority", OptPriority(u.priority)), ("status", OptStatus(u.status))]
  }

  /** The `if`s of `updateTaskTool` with the assignee under the tasks
      table's own column, `assigned_to`. */
  function TaskUpdateFields(u: UpdateInput): seq<(string, Value)> {
    [("title", OptText(u.title)), ("description", OptText(u.description)),
     ("assigned_to", OptText(u.assignee)), ("priority", OptPriority(u.priority)), ("status", OptStatus(u.status))]
  }

  /** What an update tool sends: `Number(id)` and the `updates` object. */
  datatype UpdateRequest = UpdateRequest(id: JsNumber, updates: Record)

  /** `if (x) updates.k = x` for the argument `fields[n]`: the update
      built so far from the earlier arguments grows by this one. */
  method PutTruthy(updates: Record, fields: seq<(string, Value)>, n: nat) returns (r: Record)
    requires n < |fields| && updates == TruthyOnly(fields[..n])
    ensures r == TruthyOnly(fields[..n + 1])
  {
    r := updates;
    if Truthy(fields[n].1) {
      r := r[fields[n].0 := fields[n].1];
    }
    TruthyOnlyStep(fields, n);
  }

  /** The four `if`s of the requirement and defect tools, one per argument
      in order, each adding its field when the argument is truthy. */
  method PutFour(fields: seq<(string, Value)>) returns (updates: Record)
    requires |fields| == 4
    ensures updates == TruthyOnly(fields)
  {
    updates := map[];
    assert fields[..0] == [];
    updates := PutTruthy(updates, fields, 0);
    updates := PutTruthy(updates, fields, 1);
    updates := PutTruthy(updates, fields, 2);
    updates := PutTruthy(updates, fields, 3);
    assert fields[..4] == fields;
  }

  /** The five `if`s of the task tool. */
  method PutFive(fields: seq<(string, Value)>) returns (updates: Record)
    requires |fields| == 5
    ensures updates == TruthyOnly(fields)
  {
    updates := map[];
    assert fields[..0] == [];
    updates := PutTruthy(updates, fields, 0);
    updates := PutTruthy(updates, fields, 1);
    updates := PutTruthy(updates, fields, 2);
    updates := PutTruthy(updates, fields, 3);
    updates := PutTruthy(updates, fields, 4);
    assert fields[..5] == fields;
  }

  /** `updateRequirementTool`: the `updates` object built field by field. */
  method RequirementUpdates(u: UpdateInput) returns (req: UpdateRequest)
    ensures req.id == ToNumber(u.itemId)
    ensures req.updates == TruthyOnly(RequirementUpdateFields(u))
  {
    var updates := PutFour(RequirementUpdateFields(u));
    req := UpdateRequest(ToNumber(u.itemId), updates);
  }

  /** `updateDefectTool`: the same with a blocking level for the priority. */
  method DefectUpdates(u: UpdateInput) returns (req: UpdateRequest)
    ensures req.id == ToNumber(u.itemId)
    ensures req.updates == TruthyOnly(DefectUpdateFields(u))
  {
    var updates := PutFour(DefectUpdateFields(u));
    req := UpdateRequest(ToNumber(u.itemId), updates);
  }

  /** `updateTaskTool`, with the assignee stored as `assigned_to`. */
  method TaskUpdates(u: UpdateInput) returns (req: UpdateRequest)
    ensures req.id == ToNumber(u.itemId)
    ensures req.updates == TruthyOnly(TaskUpdateFields(u))
  {
    var updates := PutFive(TaskUpdateFields(u));
    req := UpdateRequest(ToNumber(u.itemId), updates);
  }

  /** Every field name an update can carry is one of `cols`. */
  lemma TruthyOnlyKeys(fields: seq<(string, Value)>, cols: set<string>)
    requires forall i :: 0 <= i < |fields| ==> fields[i].0 in cols
    ensures TruthyOnly(fields).Keys <= cols
  {
    TruthyOnlySound(fields);
    forall k | k in TruthyOnly(fields) ensures k in cols {
      var i :| 0 <= i < |fields| && fields[i] == (k, TruthyOnly(fields)[k]);
    }
  }

  /** A text argument reaches the update exactly when it is given and not
      empty; an enum argument exactly when it is given. Nothing else does,
      and every field is a column of the requirements table. */
  lemma RequirementUpdateExact(u: UpdateInput)
    ensures var r := TruthyOnly(RequirementUpdateFields(u));
      && ("title" in r <==> u.title.Some? && u.title.value != "")
      && ("description" in r <==> u.description.Some? && u.description.value != "")
      && ("priority" in r <==> u.priority.Some?)
      && ("status" in r <==> u.status.Some?)
      && ("title" in r ==> r["title"] == Str(u.title.value))
      && ("description" in r ==> r["description"] == Str(u.description.value))
      && ("priority" in r ==> r["priority"] == Str(PriorityName(u.priority.value)))
      && ("status" in r ==> r["status"] == Str(StatusName(u.status.value)))
    ensures TruthyOnly(RequirementUpdateFields(u)).Keys <= UpdateColumns(RequirementType)
  {
    var fields := RequirementUpdateFields(u);
    TruthyOnlyExact(fields, 0);
    TruthyOnlyExact(fields, 1);
    TruthyOnlyExact(fields, 2);
    TruthyOnlyExact(fields, 3);
    TruthyOnlyKeys(fields, UpdateColumns(RequirementType));
  }

  /** The same for defects, with the blocking level in place of the
      priority. */
  lemma DefectUpdateExact(u: UpdateInput)
    ensures var r := TruthyOnly(DefectUpdateFields(u));
      && ("title" in r <==> u.title.Some? && u.title.value != "")
      && ("description" in r <==> u.description.Some? && u.description.value != "")
      && ("blocking_level" in r <==> u.blockingLevel.Some?)
      && ("status" in r <==> u.status.Some?)
      && ("title" in r ==> r["title"] == Str(u.title.value))
      && ("description" in r ==> r["description"] == Str(u.description.value))
      && ("blocking_level" in r ==> r["blocking_level"] == Str(BlockingLevelName(u.blockingLevel.value)))
      && ("status" in r ==> r["status"] == Str(StatusName(u.status.value)))
    ensures TruthyOnly(DefectUpdateFields(u)).Keys <= UpdateColumns(DefectType)
  {
    var fields := DefectUpdateFields(u);
    TruthyOnlyExact(fields, 0);
    TruthyOnlyExact(fields, 1);
    TruthyOnlyExact(fields, 2);
    TruthyOnlyExact(fields, 3);
    TruthyOnlyKeys(fields, UpdateColumns(DefectType));
  }

  /** The task update as written puts a given assignee under `assignee`,
      which is not a column of the tasks table: the update cannot store it. */
  lemma AssigneeKeyNotAColumn(u: UpdateInput)
    requires u.assignee.Some? && u.assignee.value != ""
    ensures "assignee" in TruthyOnly(TaskUpdateFieldsAsWritten(u))
    ensures "assignee" !in UpdateColumns(TaskType)
    ensures !(TruthyOnly(TaskUpdateFieldsAsWritten(u)).Keys <= UpdateColumns(TaskType))
  {
    TruthyOnlyExact(TaskUpdateFieldsAsWritten(u), 2);
  }

  /** With the assignee under `assigned_to`, every task update fits the
      tasks table, and a given assignee is stored as the new assignee. */
  lemma TaskUpdateExact(u: UpdateInput)
    ensures var r := TruthyOnly(TaskUpdateFields(u));
      && ("title" in r <==> u.title.Some? && u.title.value != "")
      && ("description" in r <==> u.description.Some? && u.description.value != "")
      && ("assigned_to" in r <==> u.assignee.Some? && u.assignee.value != "")
      && ("priority" in r <==> u.priority.Some?)
      && ("status" in r <==> u.status.Some?)
      && ("title" in r ==> r["title"] == Str(u.title.value))
      && ("description" in r ==> r["description"] == Str(u.description.value))
      && ("assigned_to" in r ==> r["assigned_to"] == Str(u.assignee.value))
      && ("priority" in r ==> r["priority"] == Str(PriorityName(u.priority.value)))
      && ("status" in r ==> r["status"] == Str(StatusName(u.status.value)))
    ensures TruthyOnly(TaskUpdateFields(u)).Keys <= UpdateColumns(TaskType)
  {
    var fields := TaskUpdateFields(u);
    TruthyOnlyExact(fields, 0);
    TruthyOnlyExact(fields, 1);
    TruthyOnlyExact(fields, 2);
    TruthyOnlyExact(fields, 3);
    TruthyOnlyExact(fields, 4);
    TruthyOnlyKeys(fields, UpdateColumns(TaskType));
  }

  // ---- get and list ----

  /** `getRequirement` / `getTask` / `getDefect`: the id goes through
      `Number`, and the lookup's outcome is enveloped. */
  function GetTool<T>(itemId: string, lookup: JsNumber -> Outcome<T>): (r: ToolResult<T>)
    ensures r.Succeeded? <==> lookup(ToNumber(itemId)).Done?
    ensures r.Succeeded? ==> r.value == lookup(ToNumber(itemId)).result
    ensures r.Failed? ==> r.error == lookup(ToNumber(itemId)).message
  {
    Envelope(lookup(ToNumber(itemId)))
  }

  /** An id written out in decimal reaches the lookup as that number. */
  lemma GetToolDecimalId<T>(n: nat, lookup: JsNumber -> Outcome<T>)
    ensures GetTool(DecimalString(n), lookup) == Envelope(lookup(Finite(n)))
  {
    NumberOfDecimal(n);
  }

  /** `listRequirements` / `listTasks` / `listDefects`: the `random`
      argument is never read; the result is the enveloped list. */
  function ListTool<T>(random: string, all: Outcome<seq<T>>): (r: ToolResult<seq<T>>)
    ensures r.Succeeded? <==> all.Done?
    ensures r.Succeeded? ==> r.value == all.result
    ensures r.Failed? ==> r.error == all.message
  {
    Envelope(all)
  }

  // ---- iterations ----

  /** The row `createIteration` inserts. */
  datatype NewIteration = NewIteration(projectId: JsNumber, startDate: string, endDate: string)

  /** `createIteration`: the project id through `Number`, both dates as
      given; there is no check that the end does not precede the start. */
  function CreateIterationRow(projectId: string, startDate: string, endDate: string): (r: NewIteration)
    ensures r.projectId == ToNumber(projectId)
    ensures r.startDate == startDate && r.endDate == endDate
  {
    NewIteration(ToNumber(projectId), startDate, endDate)
  }

  /** `xs.map(f)`: `f` applied to each element, in order. */
  function Mapped<A, B>(f: A -> B, xs: seq<A>): (r: seq<B>)
    ensures |r| == |xs|
    ensures forall i :: 0 <= i < |xs| ==> r[i] == f(xs[i])
  {
    if xs == [] then [] else [f(xs[0])] + Mapped(f, xs[1..])
  }

  /** `ids.map(id => Number(id))`, in order. */
  function Numbers(ids: seq<string>): (r: seq<JsNumber>)
    ensures |r| == |ids|
    ensures forall i :: 0 <= i < |ids| ==> r[i] == ToNumber(ids[i])
  {
    Mapped(ToNumber, ids)
  }

  /** `ids ? ids.map(id => Number(id)) : []` */
  function NumbersOf(ids: Option<seq<string>>): (r: seq<JsNumber>)
    ensures ids.None? ==> r == []
    ensures ids.Some? ==> |r| == |ids.value| && forall i :: 0 <= i < |r| ==> r[i] == ToNumber(ids.value[i])
  {
    if ids.Some? then Numbers(ids.value) else []
  }

  /** The id lists `addItemsToIteration` passes on. */
  datatype ItemIds = ItemIds(requirements: seq<JsNumber>, tasks: seq<JsNumber>, defects: seq<JsNumber>)

  /** `addItemsToIteration`'s arguments to the assignment: the iteration id
      through `Number`, and each list converted, or empty when omitted. */
  function AddItemsArgs(iterationId: string, requirements: Option<seq<string>>, tasks: Option<seq<string>>,
      defects: Option<seq<string>>): (r: (JsNumber, ItemIds))
    ensures r.0 == ToNumber(iterationId)
    ensures r.1.requirements == NumbersOf(requirements)
    ensures r.1.tasks == NumbersOf(tasks)
    ensures r.1.defects == NumbersOf(defects)
  {
    (ToNumber(iterationId), ItemIds(NumbersOf(requirements), NumbersOf(tasks), NumbersOf(defects)))
  }

  /** Ids written out in decimal arrive as those numbers, in order. */
  lemma NumbersOfDecimals(ids: seq<string>, ns: seq<nat>)
    requires |ids| == |ns| && forall i :: 0 <= i < |ns| ==> ids[i] == DecimalString(ns[i])
    ensures forall i :: 0 <= i < |ns| ==> NumbersOf(Some(ids))[i] == Finite(ns[i])
  {
    forall i | 0 <= i < |ns| ensures NumbersOf(Some(ids))[i] == Finite(ns[i]) {
      NumberOfDecimal(ns[i]);
    }
  }
}
