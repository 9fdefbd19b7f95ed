/** The top-level shell: which screen is showing and which workspace tab is active. */
module App {
  datatype Screen = Launcher | Workspace

  /** `appState` as a value. */
  datatype Shell = Shell(view: Screen, activeTab: string)

  const INITIAL := Shell(Launcher, "map")

  /** `goToWorkspace` leaves the active tab alone. */
  function InWorkspace(s: Shell): (r: Shell)
    ensures r.view == Workspace && r.activeTab == s.activeTab
  {
    s.(view := Workspace)
  }

  /** `goToLauncher` also sends the tab back to the map. */
  function AtLauncher(s: Shell): (r: Shell)
    ensures r == INITIAL
  {
    Shell(Launcher, "map")
  }

  /** Both transitions are idempotent, and going back to the launcher forgets the tab. */
  lemma TransitionsIdempotent(s: Shell)
    ensures InWorkspace(InWorkspace(s)) == InWorkspace(s)
    ensures AtLauncher(AtLauncher(s)) == AtLauncher(s)
    ensures AtLauncher(InWorkspace(s)) == INITIAL
    ensures InWorkspace(AtLauncher(s)) == Shell(Workspace, "map")
  {
  }

  class AppState {
    var view: Screen
    var activeTab: string

    constructor ()
      ensures State() == INITIAL
    {
      view := Launcher;
      activeTab := "map";
    }

    function State(): Shell
      reads this
    {
      Shell(view, activeTab)
    }

    method GoToWorkspace()
      modifies this
      ensures State() == InWorkspace(old(State()))
    {
      view := Workspace;
    }

    method GoToLauncher()
      modifies this
      ensures State() == AtLauncher(old(State()))
    {
      view := Launcher;
      activeTab := "map";
    }
  }
}
