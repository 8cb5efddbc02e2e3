/** The side menu of a project's pages: which entry the current path
    selects, and where each entry links to. */
module ProjectLayout {
  import opened Js

  datatype MenuKey = DashboardKey | RequirementsKey | TasksKey | DefectsKey | IterationsKey

  /** `getSelectedKey`: the first of '/requirements', '/tasks', '/defects'
      and '/iterations' the path contains decides; a path with none of them
      is the dashboard. */
  function SelectedKey(path: string): (k: MenuKey)
    ensures Includes(path, "/requirements") ==> k == RequirementsKey
    ensures k == TasksKey <==> !Includes(path, "/requirements") && Includes(path, "/tasks")
    ensures k == DefectsKey <==>
      !Includes(path, "/requirements") && !Includes(path, "/tasks") && Includes(path, "/defects")
    ensures k == IterationsKey <==>
      !Includes(path, "/requirements") && !Includes(path, "/tasks") && !Includes(path, "/defects")
      && Includes(path, "/iterations")
    ensures k == DashboardKey <==>
      !Includes(path, "/requirements") && !Includes(path, "/tasks") && !Includes(path, "/defects")
      && !Includes(path, "/iterations")
  {
    if Includes(path, "/requirements") then RequirementsKey
    else if Includes(path, "/tasks") then TasksKey
    else if Includes(path, "/defects") then DefectsKey
    else if Includes(path, "/iterations") then IterationsKey
    else DashboardKey
  }

  /** The path segment each entry adds after the project. */
  function Suffix(k: MenuKey): string {
    match k
    case DashboardKey => ""
    case RequirementsKey => "/requirements"
    case TasksKey => "/tasks"
    case DefectsKey => "/defects"
    case IterationsKey => "/iterations"
  }

  /** The `to` of each entry's link: `/project/<id>` and the entry's segment. */
  function MenuLink(projectId: string, k: MenuKey): (link: string)
    ensures link == "/project/" + projectId + Suffix(k)
    ensures "/project/" <= link
  {
    var link := "/project/" + projectId + Suffix(k);
    assert link[..9] == "/project/";
    link
  }

  /** After every '/' of `s` comes something other than `c`. */
  predicate NoSlashBefore(s: string, c: char) {
    forall i :: 0 <= i < |s| - 1 && s[i] == '/' ==> s[i + 1] != c
  }

  /** No occurrence of `w` can start at a '/' followed by a character other
      than `w`'s second one. */
  lemma NotIncluded(s: string, w: string)
    requires |w| >= 2 && w[0] == '/' && NoSlashBefore(s, w[1])
    ensures !Includes(s, w)
  {
    IncludesAt(s, w);
  }

  /** In a menu link with a numeric project id, a '/' is followed by 'p'
      (of "project"), a digit, another '/', or the first letter of the
      entry's segment; so never by any other character. */
  lemma SlashFollowers(projectId: string, k: MenuKey, c: char)
    requires AllDigits(projectId)
    requires c != 'p' && !IsDigit(c) && c != '/' && (Suffix(k) != [] ==> c != Suffix(k)[1])
    ensures NoSlashBefore(MenuLink(projectId, k), c)
  {
    var s := MenuLink(projectId, k);
    var head := "/project/";
    var n := |head| + |projectId|;
    forall i | 0 <= i < |s| - 1 && s[i] == '/'
      ensures s[i + 1] != c
    {
      if i < |head| {
        assert i == 0 || i == 8;
        if i == 8 && |projectId| > 0 {
          assert s[9] == projectId[0];
        } else if i == 8 {
          assert s[9] == Suffix(k)[0];
        }
      } else if i >= n {
        assert s[i] == Suffix(k)[i - n];
        assert i == n;
        assert s[i + 1] == Suffix(k)[1];
      }
    }
  }

  /** A link includes its own segment. */
  lemma IncludesOwnSuffix(projectId: string, k: MenuKey)
    ensures Includes(MenuLink(projectId, k), Suffix(k))
  {
    var s := MenuLink(projectId, k);
    assert s[|s| - |Suffix(k)|..] == Suffix(k);
    IncludesAt(s, Suffix(k));
  }

  /** A menu link does not contain another entry's segment `w`. */
  lemma LinkLacks(projectId: string, k: MenuKey, w: string)
    requires AllDigits(projectId)
    requires |w| >= 2 && w[0] == '/' && w[1] != 'p' && !IsDigit(w[1]) && w[1] != '/'
    requires Suffix(k) != [] ==> w[1] != Suffix(k)[1]
    ensures !Includes(MenuLink(projectId, k), w)
  {
    SlashFollowers(projectId, k, w[1]);
    NotIncluded(MenuLink(projectId, k), w);
  }

  /** Every menu link of a project with a numeric id selects its own entry. */
  lemma SelectedKeyOfLink(projectId: string, k: MenuKey)
    requires AllDigits(projectId)
    ensures SelectedKey(MenuLink(projectId, k)) == k
  {
    IncludesOwnSuffix(projectId, k);
    match k
    case RequirementsKey =>
    case TasksKey =>
      LinkLacks(projectId, k, "/requirements");
    case DefectsKey =>
      LinkLacks(projectId, k, "/requirements");
      LinkLacks(projectId, k, "/tasks");
    case IterationsKey =>
      LinkLacks(projectId, k, "/requirements");
      LinkLacks(projectId, k, "/tasks");
      LinkLacks(projectId, k, "/defects");
    case DashboardKey =>
      LinkLacks(projectId, k, "/requirements");
      LinkLacks(projectId, k, "/tasks");
      LinkLacks(projectId, k, "/defects");
      LinkLacks(projectId, k, "/iterations");
  }
}
