/** The top menu of the signed-in pages and the user's name and avatar
    letter in its header. */
module AppLayout {
  import opened Common
  import opened Js
  import opened Schema
  import ProjectLayout

  datatype AppKey = HomeKey | ProjectsKey | NoKey

  /** `getSelectedKey`: '/' and '/home' are the home page, any other path
      through a project is the projects entry, and everything else selects
      nothing (the key ''). */
  function SelectedKey(path: string): (k: AppKey)
    ensures k == HomeKey <==> path == "/" || path == "/home"
    ensures k == ProjectsKey <==> path != "/" && path != "/home" && Includes(path, "/project")
    ensures k == NoKey <==> path != "/" && path != "/home" && !Includes(path, "/project")
  {
    if path == "/" || path == "/home" then HomeKey
    else if Includes(path, "/project") then ProjectsKey
    else NoKey
  }

  /** Every page of a project keeps the projects entry selected. */
  lemma ProjectPagesSelectProjects(projectId: string, k: ProjectLayout.MenuKey)
    ensures SelectedKey(ProjectLayout.MenuLink(projectId, k)) == ProjectsKey
  {
    var link := ProjectLayout.MenuLink(projectId, k);
    assert "/project" <= link by {
      assert link[..8] == "/project";
    }
    IncludesPrefix(link, "/project");
    assert link != "/" && link != "/home" by {
      assert |link| >= 9;
      assert link[1] == 'p';
    }
  }

  /** `user?.email || '用户'` */
  function UserName(user: Option<User>): (name: string)
    ensures name != ""
    ensures user.Some? && user.value.email.Some? && user.value.email.value != "" ==> name == user.value.email.value
    ensures name != "用户" ==> user.Some? && user.value.email.Some? && name == user.value.email.value
  {
    if user.Some? && user.value.email.Some? && user.value.email.value != "" then user.value.email.value
    else "用户"
  }

  /** `user?.email?.charAt(0).toUpperCase() || 'U'`: one letter, the
      upper-cased first character of the address, or 'U' without one. */
  function UserInitial(user: Option<User>): (initial: string)
    ensures |initial| == 1
    ensures user.Some? && user.value.email.Some? && user.value.email.value != "" ==>
      initial == [UpperChar(user.value.email.value[0])]
    ensures user.None? || user.value.email.None? || user.value.email.value == "" ==> initial == "U"
  {
    var email := if user.Some? && user.value.email.Some? then user.value.email.value else "";
    var first := InitialUpper(email);
    if first != "" then first else "U"
  }

  /** The avatar letter is the first letter of the name shown beside it,
      upper-cased, whenever the name is an address. */
  lemma InitialOfName(user: Option<User>)
    requires UserName(user) != "用户"
    ensures UserInitial(user) == [UpperChar(UserName(user)[0])]
  {
  }
}
