/** The project list page: creating a project from the name and
    description fields, deleting one, and loading the list. The requests
    are the projects API's; their outcomes are parameters. */
module ProjectList {
  import opened Common
  import opened Js
  import opened Schema

  const LoadFailed := "加载项目列表失败"
  const CreateFailed := "创建项目失败"
  const DeleteFailed := "删除项目失败"

  /** `s.trim() || null`: the trimmed text, or null when nothing but
      whitespace was typed. */
  function TrimmedOrNull(s: string): (r: Option<string>)
    ensures r.None? <==> AllWhitespace(s)
    ensures r.Some? ==> r.value == Trim(s) && r.value != ""
  {
    TrimEmptyIff(s);
    if Trim(s) == [] then None else Some(Trim(s))
  }

  /** The row `createProject` inserts. */
  datatype NewProject = NewProject(name: string, description: Option<string>, creatorId: Option<string>)

  /** `handleCreateProject`'s request: none when the name is blank,
      otherwise the trimmed name, the trimmed description or null, and the
      signed-in user's id when there is a user. */
  function CreateRequest(name: string, description: string, user: Option<User>): (r: Option<NewProject>)
    ensures r.None? <==> AllWhitespace(name)
    ensures r.Some? ==> r.value.name == Trim(name) && r.value.name != ""
    ensures r.Some? ==> r.value.description == TrimmedOrNull(description)
    ensures r.Some? ==> (r.value.creatorId.Some? <==> user.Some?)
    ensures r.Some? && user.Some? ==> r.value.creatorId == Some(user.value.id)
  {
    var n := TrimmedOrNull(name);
    if n.None? then None
    else Some(NewProject(n.value, TrimmedOrNull(description), if user.Some? then Some(user.value.id) else None))
  }

  /** `projects.filter(p => p.id !== id)` */
  function WithoutId(projects: seq<Project>, id: int): (r: seq<Project>)
    ensures forall p :: p in r <==> p in projects && p.id != id
    ensures |r| <= |projects|
  {
    if projects == [] then []
    else
      var rest := WithoutId(projects[..|projects| - 1], id);
      var last := projects[|projects| - 1];
      assert projects == projects[..|projects| - 1] + [last];
      if last.id != id then rest + [last] else rest
  }

  /** Deleting an id no project has leaves the list as it was, in order. */
  lemma {:induction false} WithoutAbsentId(projects: seq<Project>, id: int)
    requires forall p :: p in projects ==> p.id != id
    ensures WithoutId(projects, id) == projects
  {
    if projects != [] {
      var init := projects[..|projects| - 1];
      assert forall p :: p in init ==> p in projects;
      WithoutAbsentId(init, id);
      assert projects == init + [projects[|projects| - 1]];
    }
  }

  /** Deleting keeps the other projects in their order: deleting from a
      list with one more project at the end deletes from the list and keeps
      that project when its id differs. */
  lemma WithoutIdAppend(projects: seq<Project>, p: Project, id: int)
    ensures WithoutId(projects + [p], id) == WithoutId(projects, id) + (if p.id != id then [p] else [])
  {
    assert (projects + [p])[..|projects + [p]| - 1] == projects;
  }

  class ProjectListPage {
    var projects: seq<Project>
    var loading: bool
    var error: Option<string>
    var showCreateForm: bool
    var newProjectName: string
    var newProjectDescription: string

    constructor()
      ensures projects == [] && loading && error.None?
      ensures !showCreateForm && newProjectName == "" && newProjectDescription == ""
    {
      projects := [];
      loading := true;
      error := None;
      showCreateForm := false;
      newProjectName, newProjectDescription := "", "";
    }

    /** `loadProjects`: the fetched list, or the load error with the list
      kept. */
    method LoadProjects(answer: Outcome<seq<Project>>)
      modifies this
      ensures answer.Done? ==> projects == answer.result && error.None?
      ensures answer.Threw? ==> projects == old(projects) && error == Some(LoadFailed)
      ensures !loading
      ensures showCreateForm == old(showCreateForm)
      ensures newProjectName == old(newProjectName) && newProjectDescription == old(newProjectDescription)
    {
      loading := true;
      error := None;
      if answer.Done? {
        projects := answer.result;
      } else {
        error := Some(LoadFailed);
      }
      loading := false;
    }

    /** `handleCreateProject`: nothing with a blank name; otherwise the
      request is sent, and its result is appended and the form cleared and
      closed, or the create error is shown with list and form kept. */
    method HandleCreateProject(user: Option<User>, answer: Outcome<Project>) returns (request: Option<NewProject>)
      modifies this
      ensures request == CreateRequest(old(newProjectName), old(newProjectDescription), user)
      ensures request.None? ==> (projects == old(projects) && loading == old(loading) && error == old(error)
        && showCreateForm == old(showCreateForm)
        && newProjectName == old(newProjectName) && newProjectDescription == old(newProjectDescription))
      ensures request.Some? && answer.Done? ==> (projects == old(projects) + [answer.result]
        && newProjectName == "" && newProjectDescription == "" && !showCreateForm && error == old(error))
      ensures request.Some? && answer.Threw? ==> (projects == old(projects) && error == Some(CreateFailed)
        && showCreateForm == old(showCreateForm)
        && newProjectName == old(newProjectName) && newProjectDescription == old(newProjectDescription))
      ensures request.Some? ==> !loading
    {
      request := CreateRequest(newProjectName, newProjectDescription, user);
      if request.None? {
        return;
      }
      loading := true;
      if answer.Done? {
        projects := projects + [answer.result];
        newProjectName, newProjectDescription := "", "";
        showCreateForm := false;
      } else {
        error := Some(CreateFailed);
      }
      loading := false;
    }

    /** `handleDeleteProject`: the projects with that id leave the list, the
      others stay in order; a failed delete shows the error and keeps the
      list. */
    method HandleDeleteProject(id: int, answer: Outcome<()>)
      modifies this
      ensures answer.Done? ==> projects == WithoutId(old(projects), id) && error == old(error)
      ensures answer.Threw? ==> projects == old(projects) && error == Some(DeleteFailed)
      ensures !loading
      ensures showCreateForm == old(showCreateForm)
      ensures newProjectName == old(newProjectName) && newProjectDescription == old(newProjectDescription)
    {
      loading := true;
      if answer.Done? {
        projects := WithoutId(projects, id);
      } else {
        error := Some(DeleteFailed);
      }
      loading := false;
    }
  }
}
