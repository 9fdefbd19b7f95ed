/**
 * The workspace commands: save the project, close it and go back to the launcher, and
 * switch to one of the registered tabs.
 */
module Workspace {
  import opened Wrappers
  import opened Model
  import opened Seqs
  import opened ProjectStore
  import opened Commands
  import opened App
  import opened UiTabs

  const UNKNOWN_TAB := "Aba inexistente."

  function TabWithId(id: string): Tab -> bool {
    (t: Tab) => t.id == id
  }

  /** `navigateTabCommand` on the shell: an id that is not a tab fails and changes nothing. */
  function Navigated(shell: Shell, tabs: seq<Tab>, tabId: string): (r: (Shell, Option<string>))
    ensures (exists i :: 0 <= i < |tabs| && tabs[i].id == tabId) ==> r == (shell.(activeTab := tabId), None)
    ensures (forall i :: 0 <= i < |tabs| ==> tabs[i].id != tabId) ==> r == (shell, Some(UNKNOWN_TAB))
  {
    if FindIndex(tabs, TabWithId(tabId)) == -1 then (shell, Some(UNKNOWN_TAB))
    else (shell.(activeTab := tabId), None)
  }

  function TabValue(id: string): Json {
    JObject(map["tabId" := JString(id)])
  }

  function TabItem(t: Tab): PaletteItem {
    PaletteItem(t.caption, Some(""), TabValue(t.id))
  }

  /** The `ui:navigate` argsProvider: one item per tab, in bar order, carrying `{tabId}`. */
  function TabItems(tabs: seq<Tab>): (r: seq<PaletteItem>)
    ensures |r| == |tabs|
    ensures forall i :: 0 <= i < |r| ==> r[i].caption == tabs[i].caption && r[i].value == TabValue(tabs[i].id)
  {
    MapSeq(tabs, TabItem)
  }

  /** Whatever the picker offers navigates without error to the tab it names. */
  lemma PickedTabNavigates(shell: Shell, tabs: seq<Tab>, i: nat)
    requires i < |tabs|
    ensures TabItems(tabs)[i].value == TabValue(tabs[i].id)
    ensures Navigated(shell, tabs, tabs[i].id) == (shell.(activeTab := tabs[i].id), None)
  {
  }

  /** Navigating is idempotent, and a second navigation overrides the first. */
  lemma NavigateTwice(shell: Shell, tabs: seq<Tab>, a: string, b: string)
    ensures var (s1, _) := Navigated(shell, tabs, a);
            && Navigated(s1, tabs, a).0 == s1
            && (Navigated(s1, tabs, b).1.None? ==> Navigated(s1, tabs, b).0 == shell.(activeTab := b))
  {
  }

  class WorkspaceController {
    const projects: ProjectStore
    const app: AppState
    const ui: UIManager

    constructor (projects: ProjectStore, app: AppState, ui: UIManager)
      ensures this.projects == projects && this.app == app && this.ui == ui
    {
      this.projects := projects;
      this.app := app;
      this.ui := ui;
    }

    /**
     * `saveProjectCommand`: false with no project, true once the save resolved; `threw`
     * is set when the write fails and the promise rejects.
     */
    method SaveProject(writeSucceeds: bool) returns (saved: bool, threw: bool)
      modifies projects.current
      ensures projects.current == null ==> !saved && !threw
      ensures projects.current != null ==>
                && saved == writeSucceeds && threw == !writeSucceeds
                && projects.current.data == old(projects.current.data)
                && projects.current.changesUnsaved == (old(projects.current.changesUnsaved) && !writeSucceeds)
    {
      saved := false;
      threw := false;
      if projects.current != null {
        threw := projects.Save(writeSucceeds);
        saved := !threw;
      }
    }

    /**
     * `closeProjectCommand`; `confirmed` answers the "save before leaving?" dialog, shown
     * only for unsaved changes. A failing save rejects before the project is closed.
     */
    method CloseProject(confirmed: bool, writeSucceeds: bool) returns (savedFirst: bool, threw: bool)
      modifies projects, projects.current, app
      ensures var asked := old(projects.current) != null && old(projects.current.changesUnsaved);
              && savedFirst == (asked && confirmed && writeSucceeds)
              && threw == (asked && confirmed && !writeSucceeds)
      ensures !threw ==> projects.current == null && app.State() == AtLauncher(old(app.State()))
      ensures threw ==> projects.current == old(projects.current) && app.State() == old(app.State())
      ensures threw ==>
                && projects.current != null
                && projects.current.data == old(projects.current.data)
                && projects.current.changesUnsaved
      ensures savedFirst ==>
                old(projects.current).data == old(projects.current.data) && !old(projects.current).changesUnsaved
    {
      savedFirst := false;
      threw := false;
      if projects.current != null && projects.current.changesUnsaved {
        if confirmed {
          threw := projects.Save(writeSucceeds);
          if threw {
            return;
          }
          savedFirst := true;
        }
      }
      projects.Close();
      app.GoToLauncher();
    }

    /** `navigateTabCommand`; `error` is the message it throws. */
    method NavigateTab(tabId: string) returns (error: Option<string>)
      modifies app
      ensures (app.State(), error) == Navigated(old(app.State()), ui.tabs, tabId)
    {
      if FindIndex(ui.tabs, TabWithId(tabId)) == -1 {
        return Some(UNKNOWN_TAB);
      }
      app.activeTab := tabId;
      error := None;
    }
  }
}
