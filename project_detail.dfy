/** The project detail page: loading a project with its work items and
    iterations, editing its name and description, and cancelling an edit.
    The requests are the projects API's; their outcomes are parameters. */
module ProjectDetail {
  import opened Common
  import opened Js
  import opened Schema
  import ProjectList

  const LoadFailed := "加载项目详情失败"
  const UpdateFailed := "更新项目失败"

  /** A project with the rows that belong to it. */
  datatype ProjectWithRelations = ProjectWithRelations(
    project: Project,
    requirements: seq<WorkItem>,
    tasks: seq<WorkItem>,
    defects: seq<WorkItem>,
    iterations: seq<Iteration>)

  /** The columns `handleUpdateProject` sends. */
  datatype ProjectUpdate = ProjectUpdate(name: string, description: Option<string>)

  /** `description || ''` */
  function DescriptionText(d: Option<string>): (t: string)
    ensures d.Some? ==> t == d.value
    ensures d.None? ==> t == ""
  {
    if d.Some? then d.value else ""
  }

  /** `{ ...project, ...updatedProject }`: every column of the project row
      comes from the update's answer, the related rows stay. */
  function Merged(current: ProjectWithRelations, updated: Project): (r: ProjectWithRelations)
    ensures r.project == updated
    ensures r.requirements == current.requirements && r.tasks == current.tasks
    ensures r.defects == current.defects && r.iterations == current.iterations
  {
    current.(project := updated)
  }

  /** `handleUpdateProject`'s request: none without a project or with a
      blank name; otherwise the project's id with the trimmed name and the
      trimmed description or null. */
  function UpdateRequest(project: Option<ProjectWithRelations>, name: string, description: string)
    : (r: Option<(int, ProjectUpdate)>)
    ensures r.None? <==> project.None? || AllWhitespace(name)
    ensures r.Some? ==> project.Some?
    ensures r.Some? ==> r.value.0 == project.value.project.id
    ensures r.Some? ==> r.value.1.name == Trim(name) && r.value.1.name != ""
    ensures r.Some? ==> r.value.1.description == ProjectList.TrimmedOrNull(description)
  {
    var n := ProjectList.TrimmedOrNull(name);
    if project.None? || n.None? then None
    else Some((project.value.project.id, ProjectUpdate(n.value, ProjectList.TrimmedOrNull(description))))
  }

  class ProjectDetailPage {
    var project: Option<ProjectWithRelations>
    var loading: bool
    var error: Option<string>
    var isEditMode: bool
    var editName: string
    var editDescription: string

    constructor()
      ensures project.None? && loading && error.None? && !isEditMode
      ensures editName == "" && editDescription == ""
    {
      project := None;
      loading := true;
      error := None;
      isEditMode := false;
      editName, editDescription := "", "";
    }

    /** The edit fields show the project as stored. */
    predicate FieldsShowProject()
      reads this
    {
      project.Some? && editName == project.value.project.name
        && editDescription == DescriptionText(project.value.project.description)
    }

    /** `loadProjectDetails`: the project, and the edit fields set from its
      name and description; or the load error with everything kept. */
    method LoadProjectDetails(answer: Outcome<ProjectWithRelations>)
      modifies this
      ensures answer.Done? ==> project == Some(answer.result) && error.None? && FieldsShowProject()
      ensures answer.Threw? ==> (project == old(project) && error == Some(LoadFailed)
        && editName == old(editName) && editDescription == old(editDescription))
      ensures !loading && isEditMode == old(isEditMode)
    {
      loading := true;
      error := None;
      if answer.Done? {
        project := Some(answer.result);
        editName := answer.result.project.name;
        editDescription := DescriptionText(answer.result.project.description);
      } else {
        error := Some(LoadFailed);
      }
      loading := false;
    }

    /** The edit button. */
    method StartEdit()
      modifies this
      ensures isEditMode
      ensures project == old(project) && editName == old(editName) && editDescription == old(editDescription)
      ensures loading == old(loading) && error == old(error)
    {
      isEditMode := true;
    }

    /** `handleUpdateProject`: nothing without a project or with a blank
      name; otherwise the trimmed name and the trimmed description or null
      are sent for the project's id, and the answer is merged in and edit
      mode left, or the update error is shown. */
    method HandleUpdateProject(answer: Outcome<Project>) returns (request: Option<(int, ProjectUpdate)>)
      modifies this
      ensures request == UpdateRequest(old(project), old(editName), old(editDescription))
      ensures request.None? ==> (project == old(project) && loading == old(loading) && error == old(error)
        && isEditMode == old(isEditMode))
      ensures request.Some? && answer.Done? ==> (project == Some(Merged(old(project).value, answer.result))
        && !isEditMode && error == old(error))
      ensures request.Some? && answer.Threw? ==> (project == old(project) && isEditMode == old(isEditMode)
        && error == Some(UpdateFailed))
      ensures request.Some? ==> !loading
      ensures editName == old(editName) && editDescription == old(editDescription)
    {
      var current := project;
      request := UpdateRequest(current, editName, editDescription);
      if request.None? {
        return;
      }
      loading := true;
      if answer.Done? {
        project := Some(Merged(current.value, answer.result));
        isEditMode := false;
      } else {
        error := Some(UpdateFailed);
      }
      loading := false;
    }

    /** The cancel button: edit mode is left and the fields are reset from
      the stored project. */
    method CancelEdit()
      requires project.Some?
      modifies this
      ensures !isEditMode && FieldsShowProject()
      ensures project == old(project) && loading == old(loading) && error == old(error)
    {
      isEditMode := false;
      editName := project.value.project.name;
      editDescription := DescriptionText(project.value.project.description);
    }
  }
}
