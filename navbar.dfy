/** The title the navigation bar shows. */
module Navbar {
  import opened Wrappers
  import opened Text
  import Sidebar

  const DashboardTitle := "대시보드"
  const TodosTitle := "할 일 관리"
  const NotesTitle := "노트"
  const AppTitle := "할 일 앱"

  /** `getPageTitle()` for the optional `title` prop and the current pathname. */
  function GetPageTitle(title: Option<string>, path: string): (t: string)
    ensures title.Some? && title.value != "" ==> t == title.value
    ensures (title.None? || title.value == "") ==> (
      if path == "/" then t == DashboardTitle
      else if StartsWith(path, "/todos") then t == TodosTitle
      else if StartsWith(path, "/notes") then t == NotesTitle
      else t == AppTitle)
  {
    if title.Some? && title.value != "" then title.value
    else if path == "/" then DashboardTitle
    else if StartsWith(path, "/todos") then TodosTitle
    else if StartsWith(path, "/notes") then NotesTitle
    else AppTitle
  }

  /** Without a title prop, the bar names the section whose sidebar entry is highlighted. */
  lemma TitleFollowsSidebar(path: string)
    ensures Sidebar.IsActive(path, "/") ==> GetPageTitle(None, path) == DashboardTitle
    ensures Sidebar.IsActive(path, "/todos") ==> GetPageTitle(None, path) == TodosTitle
    ensures Sidebar.IsActive(path, "/notes") ==> GetPageTitle(None, path) == NotesTitle
    ensures !Sidebar.IsActive(path, "/") && !Sidebar.IsActive(path, "/todos") && !Sidebar.IsActive(path, "/notes")
      ==> GetPageTitle(None, path) == AppTitle
  {
    if Sidebar.IsActive(path, "/notes") {
      assert path[..6] == "/notes";
      assert !StartsWith(path, "/todos") by {
        assert path[1] == 'n';
      }
    }
  }

  /** An empty title prop is falsy and counts as no title. */
  lemma EmptyTitleIgnored(path: string)
    ensures GetPageTitle(Some(""), path) == GetPageTitle(None, path)
  {
  }
}
