/** The rows of the hosted database as the application reads them: the three
    enums, the work-item tables (requirements, tasks, defects), iterations,
    projects, user configurations, and the signed-in user. */
module Schema {
  import opened Common

  /** status_enum */
  datatype Status = Open | InProgress | Closed

  /** priority_enum */
  datatype Priority = Low | Medium | High

  /** blocking_level_enum */
  datatype BlockingLevel = NoBlocking | LowBlocking | MediumBlocking | HighBlocking

  function StatusName(s: Status): string {
    match s
    case Open => "open"
    case InProgress => "in_progress"
    case Closed => "closed"
  }

  function PriorityName(p: Priority): string {
    match p
    case Low => "low"
    case Medium => "medium"
    case High => "high"
  }

  function BlockingLevelName(b: BlockingLevel): string {
    match b
    case NoBlocking => "none"
    case LowBlocking => "low"
    case MediumBlocking => "medium"
    case HighBlocking => "high"
  }

  /** The stored names are distinct, so each enum value reads back. */
  lemma EnumNamesInjective()
    ensures forall a: Status, b: Status :: StatusName(a) == StatusName(b) ==> a == b
    ensures forall a: Priority, b: Priority :: PriorityName(a) == PriorityName(b) ==> a == b
    ensures forall a: BlockingLevel, b: BlockingLevel :: BlockingLevelName(a) == BlockingLevelName(b) ==> a == b
  {
  }

  /** The WorkItemType union: which of the three work-item tables a row is from. */
  datatype ItemType = RequirementType | TaskType | DefectType

  function ItemTypeName(t: ItemType): string {
    match t
    case RequirementType => "requirement"
    case TaskType => "task"
    case DefectType => "defect"
  }

  /** The columns that differ between the three work-item tables. */
  datatype Detail =
    | RequirementDetail(priority: Priority)
    | TaskDetail(priority: Priority, requirementId: Option<int>)
    | DefectDetail(blockingLevel: BlockingLevel)

  /** A row of requirements, tasks or defects. */
  datatype WorkItem = WorkItem(
    id: int,
    title: string,
    description: Option<string>,
    status: Status,
    assignedTo: Option<string>,
    creatorId: Option<string>,
    createdAt: Option<string>,
    startTime: Option<string>,
    endTime: Option<string>,
    iterationId: Option<int>,
    projectId: Option<int>,
    detail: Detail)

  function TypeOf(w: WorkItem): ItemType {
    match w.detail
    case RequirementDetail(_) => RequirementType
    case TaskDetail(_, _) => TaskType
    case DefectDetail(_) => DefectType
  }

  /** The row as the JavaScript object the pages receive, so that a field
      read through a cast to another work-item type reads `undefined`. */
  function ItemRecord(w: WorkItem): (r: Record)
    ensures Get(r, "title") == Str(w.title) && Get(r, "status") == Str(StatusName(w.status))
    ensures Get(r, "assigned_to") == TextOrNull(w.assignedTo)
    ensures Get(r, "priority") == (if w.detail.DefectDetail? then Undefined else Str(PriorityName(w.detail.priority)))
    ensures Get(r, "blocking_level") == (if w.detail.DefectDetail? then Str(BlockingLevelName(w.detail.blockingLevel)) else Undefined)
    ensures Get(r, "requirement_id") == (if w.detail.TaskDetail? then NumberOrNull(w.detail.requirementId) else Undefined)
  {
    CommonRecord(w) + DetailRecord(w.detail)
  }

  /** The columns all three tables share. */
  function CommonRecord(w: WorkItem): (r: Record)
    ensures Get(r, "title") == Str(w.title) && Get(r, "status") == Str(StatusName(w.status))
    ensures Get(r, "assigned_to") == TextOrNull(w.assignedTo)
    ensures "priority" !in r && "blocking_level" !in r && "requirement_id" !in r
  {
    map[
      "id" := Num(w.id),
      "description" := TextOrNull(w.description),
      "creator_id" := TextOrNull(w.creatorId),
      "created_at" := TextOrNull(w.createdAt),
      "start_time" := TextOrNull(w.startTime),
      "end_time" := TextOrNull(w.endTime),
      "iteration_id" := NumberOrNull(w.iterationId),
      "project_id" := NumberOrNull(w.projectId),
      "assigned_to" := TextOrNull(w.assignedTo),
      "status" := Str(StatusName(w.status)),
      "title" := Str(w.title)]
  }

  /** The columns only one table has. */
  function DetailRecord(d: Detail): (r: Record)
    ensures Get(r, "priority") == (if d.DefectDetail? then Undefined else Str(PriorityName(d.priority)))
    ensures Get(r, "blocking_level") == (if d.DefectDetail? then Str(BlockingLevelName(d.blockingLevel)) else Undefined)
    ensures Get(r, "requirement_id") == (if d.TaskDetail? then NumberOrNull(d.requirementId) else Undefined)
    ensures "title" !in r && "status" !in r && "assigned_to" !in r
  {
    match d
    case RequirementDetail(p) => map["priority" := Str(PriorityName(p))]
    case TaskDetail(p, req) => map["priority" := Str(PriorityName(p)), "requirement_id" := NumberOrNull(req)]
    case DefectDetail(b) => map["blocking_level" := Str(BlockingLevelName(b))]
  }

  /** Dates of an iteration are day numbers: the order of 'YYYY-MM-DD' text,
      which the code compares as strings, is the order of the days. */
  type Day = int

  /** A row of iterations. `isLocked` is nullable; only `true` locks. */
  datatype Iteration = Iteration(
    id: int,
    projectId: Option<int>,
    startDate: Day,
    endDate: Day,
    isLocked: Option<bool>,
    creatorId: Option<string>,
    createdAt: Option<string>)

  /** `if (iteration.is_locked)`: null and false both leave it unlocked. */
  predicate Locked(it: Iteration) {
    it.isLocked == Some(true)
  }

  /** A row of projects. */
  datatype Project = Project(
    id: int,
    name: string,
    description: Option<string>,
    creatorId: Option<string>,
    createdAt: Option<string>,
    ownerId: Option<int>)

  /** A row of user_configs. */
  datatype UserConfig = UserConfig(userId: string, mcpConfig: Json, createdAt: Option<string>)

  /** The identity of the auth provider (only the fields the code reads). */
  datatype User = User(id: string, email: Option<string>)

  /** An auth-provider session, which carries its user. */
  datatype Session = Session(user: User, accessToken: string)

  /** `userInfo?.id || null`: the signed-in user's id, or null when there is
      no user or the id is empty. */
  function UserIdOrNull(u: Option<User>): (v: Value)
    ensures v == Null || (u.Some? && v == Str(u.value.id) && u.value.id != "")
    ensures u.Some? && u.value.id != "" ==> v == Str(u.value.id)
  {
    if u.Some? && u.value.id != "" then Str(u.value.id) else Null
  }
}
