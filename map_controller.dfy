/**
 * The map screen's state: the camera, the calibration switch, the two selections and the
 * drag-to-connect gesture, with the commands that change them. Coordinates are reals.
 */
module MapController {
  import opened Wrappers
  import opened Model
  import opened ProjectStore
  import opened Commands

  datatype View = View(x: real, y: real, k: real)

  /** The connection being drawn: active while dragging from `fromId`, with the cursor position. */
  datatype Gesture = Gesture(active: bool, fromId: Option<Id>, currX: real, currY: real)

  const HOME := View(0.0, 0.0, 1.0)
  const IDLE := Gesture(false, None, 0.0, 0.0)
  const ZOOM_STEP: real := 0.2
  const MAX_ZOOM: real := 5.0
  const MIN_ZOOM: real := 0.1

  /** `Math.min(k + 0.2, 5)`. */
  function ZoomedIn(k: real): (r: real)
    ensures r <= MAX_ZOOM
    ensures k + ZOOM_STEP <= MAX_ZOOM ==> r == k + ZOOM_STEP
    ensures k + ZOOM_STEP > MAX_ZOOM ==> r == MAX_ZOOM
  {
    if k + ZOOM_STEP < MAX_ZOOM then k + ZOOM_STEP else MAX_ZOOM
  }

  /** `Math.max(k - 0.2, 0.1)`. */
  function ZoomedOut(k: real): (r: real)
    ensures r >= MIN_ZOOM
    ensures k - ZOOM_STEP >= MIN_ZOOM ==> r == k - ZOOM_STEP
    ensures k - ZOOM_STEP < MIN_ZOOM ==> r == MIN_ZOOM
  {
    if k - ZOOM_STEP > MIN_ZOOM then k - ZOOM_STEP else MIN_ZOOM
  }

  /** A zoom inside [0.1, 5] stays there under both zoom commands, which move it towards the bounds. */
  lemma ZoomStaysInRange(k: real)
    requires MIN_ZOOM <= k <= MAX_ZOOM
    ensures MIN_ZOOM <= ZoomedIn(k) <= MAX_ZOOM && ZoomedIn(k) >= k
    ensures MIN_ZOOM <= ZoomedOut(k) <= MAX_ZOOM && ZoomedOut(k) <= k
  {
  }

  /**
   * Away from the upper bound, zooming out undoes zooming in. This holds over exact reals;
   * in the doubles the source computes with, `0.1 + 0.2 - 0.2` is not exactly `0.1`.
   */
  lemma ZoomOutUndoesZoomIn(k: real)
    requires MIN_ZOOM <= k <= MAX_ZOOM - ZOOM_STEP
    ensures ZoomedOut(ZoomedIn(k)) == k
  {
  }

  predicate Truthy(v: Option<real>) {
    v.Some? && v.value != 0.0
  }

  /** `setViewCommand`: each component is assigned only when it is given and not 0. */
  function ViewSet(view: View, x: Option<real>, y: Option<real>, k: Option<real>): (r: View)
    ensures r.x == (if Truthy(x) then x.value else view.x)
    ensures r.y == (if Truthy(y) then y.value else view.y)
    ensures r.k == (if Truthy(k) then k.value else view.k)
  {
    var v1 := if Truthy(x) then view.(x := x.value) else view;
    var v2 := if Truthy(y) then v1.(y := y.value) else v1;
    if Truthy(k) then v2.(k := k.value) else v2
  }

  /** Setting a view and then setting it again with zeros keeps the first result. */
  lemma ZeroArgumentsKeepView(view: View, x: Option<real>, y: Option<real>, k: Option<real>)
    ensures ViewSet(ViewSet(view, x, y, k), Some(0.0), Some(0.0), Some(0.0)) == ViewSet(view, x, y, k)
    ensures ViewSet(view, None, None, None) == view
    ensures ViewSet(ViewSet(view, x, y, k), x, y, k) == ViewSet(view, x, y, k)
  {
  }

  /** The options `registerMapCommands` passes, in registration order. */
  const MAP_COMMANDS: seq<(string, OptionsArg)> := [
    ("map:calibrate:toggle", Description("Ativar/desativar modo de ajuste do fundo do mapa")),
    ("map:background:upload", Description("Carregar imagem de fundo")),
    ("map:background:toggle", Description("Mostrar/Esconder fundo")),
    ("map:location:create", Options(CommandOptions(Some("Cria um novo local"), Some(true), None))),
    ("map:selection:delete", Options(CommandOptions(Some("Deleta o objeto selecionado (conexão ou local)"), Some(true), None))),
    ("map:camera:reset", Description("Reseta a câmera para a posição e zoom inicial")),
    ("map:camera:zoomIn", Description("Aumenta o zoom")),
    ("map:camera:zoomOut", Description("Diminui o zoom")),
    ("map:connection:start", Description("Começa uma conexão")),
    ("map:connection:complete", Options(CommandOptions(Some("Completa uma conexão"), Some(true), None))),
    ("map:connection:cancel", Description("Cancela uma conexão")),
    ("map:setview", Description("Muda os valores da view da câmera"))
  ]

  /** Only creating a location, deleting the selection and completing a connection are taken into history. */
  lemma MapCommandFlags()
    ensures forall i :: 0 <= i < |MAP_COMMANDS| ==>
              (OptionsOf(MAP_COMMANDS[i].1).addToHistory == Some(true) <==>
                 MAP_COMMANDS[i].0 in ["map:location:create", "map:selection:delete", "map:connection:complete"])
  {
  }

  /** Every field of `mapState`, so that a command can state its whole new state. */
  datatype MapFields = MapFields(
    view: View, isPanning: bool, isCalibrating: bool, draggingNodeId: Option<Id>,
    selectedLocationId: Option<Id>, selectedConnectionId: Option<Id>, connection: Gesture)

  class MapState {
    const projects: ProjectStore
    var view: View
    var isPanning: bool
    var isCalibrating: bool
    var draggingNodeId: Option<Id>
    var selectedLocationId: Option<Id>
    var selectedConnectionId: Option<Id>
    var connection: Gesture

    constructor (projects: ProjectStore)
      ensures this.projects == projects && view == HOME && !isPanning && !isCalibrating
      ensures draggingNodeId == None && selectedLocationId == None && selectedConnectionId == None
      ensures connection == IDLE
    {
      this.projects := projects;
      view := HOME;
      isPanning := false;
      isCalibrating := false;
      draggingNodeId := None;
      selectedLocationId := None;
      selectedConnectionId := None;
      connection := IDLE;
    }

    function State(): MapFields
      reads this
    {
      MapFields(view, isPanning, isCalibrating, draggingNodeId, selectedLocationId, selectedConnectionId, connection)
    }

    function Document(): Option<Live>
      reads projects, projects.current
    {
      if projects.current == null then None else Some(projects.current.Current())
    }

    /** `createLocationCommand`: a location named "Novo Local" at the given point; `id` is the fresh id. */
    method CreateLocation(x: real, y: real, id: Id)
      modifies projects.current
      ensures projects.current != null ==>
                && projects.current.data == old(projects.current.data).(locations := old(projects.current.data.locations) + [Location(id, "Novo Local", "", Coordinates(x, y), None)])
                && projects.current.changesUnsaved
    {
      if projects.current != null {
        projects.current.AddLocation("Novo Local", "", x, y, id);
      }
    }

    /**
     * `deleteSelectionCommand`: a selected location goes first, else a selected connection;
     * `confirmed` is the answer to the dialog shown for it.
     */
    method DeleteSelection(confirmed: bool)
      modifies this, projects.current
      ensures view == old(view) && connection == old(connection) && isCalibrating == old(isCalibrating)
      ensures State() == old(State()).(selectedLocationId := selectedLocationId, selectedConnectionId := selectedConnectionId)
      ensures !confirmed || (!Present(old(selectedLocationId)) && !Present(old(selectedConnectionId))) ==>
                selectedLocationId == old(selectedLocationId) && selectedConnectionId == old(selectedConnectionId)
                && Document() == old(Document())
      ensures confirmed && Present(old(selectedLocationId)) ==>
                && selectedLocationId == None && selectedConnectionId == old(selectedConnectionId)
                && (projects.current != null ==>
                      projects.current.Current() == projects.current.absent.removeLocation(old(projects.current.Current()), old(selectedLocationId).value))
      ensures confirmed && !Present(old(selectedLocationId)) && Present(old(selectedConnectionId)) ==>
                && selectedConnectionId == None && selectedLocationId == old(selectedLocationId)
                && (projects.current != null ==>
                      projects.current.Current() == projects.current.absent.removeConnection(old(projects.current.Current()), old(selectedConnectionId).value))
    {
      if Present(selectedLocationId) {
        if confirmed {
          if projects.current != null {
            projects.current.RemoveLocation(selectedLocationId.value);
          }
          selectedLocationId := None;
        }
      } else if Present(selectedConnectionId) {
        if confirmed {
          if projects.current != null {
            projects.current.RemoveConnection(selectedConnectionId.value);
          }
          selectedConnectionId := None;
        }
      }
    }

    method ResetCamera()
      modifies this
      ensures view == HOME && connection == old(connection) && isCalibrating == old(isCalibrating)
      ensures selectedLocationId == old(selectedLocationId) && selectedConnectionId == old(selectedConnectionId)
      ensures State() == old(State()).(view := HOME)
    {
      view := HOME;
    }

    method ZoomIn()
      modifies this
      ensures view == old(view).(k := ZoomedIn(old(view.k))) && connection == old(connection)
      ensures selectedLocationId == old(selectedLocationId) && selectedConnectionId == old(selectedConnectionId)
      ensures State() == old(State()).(view := old(view).(k := ZoomedIn(old(view.k))))
    {
      view := view.(k := ZoomedIn(view.k));
    }

    method ZoomOut()
      modifies this
      ensures view == old(view).(k := ZoomedOut(old(view.k))) && connection == old(connection)
      ensures selectedLocationId == old(selectedLocationId) && selectedConnectionId == old(selectedConnectionId)
      ensures State() == old(State()).(view := old(view).(k := ZoomedOut(old(view.k))))
    {
      view := view.(k := ZoomedOut(view.k));
    }

    /** `startConnectionCommand`. */
    method StartConnection(fromId: Id, x: real, y: real)
      modifies this
      ensures connection == Gesture(true, Some(fromId), x, y)
      ensures selectedLocationId == None && selectedConnectionId == old(selectedConnectionId)
      ensures view == old(view) && isCalibrating == old(isCalibrating)
      ensures State() == old(State()).(connection := Gesture(true, Some(fromId), x, y), selectedLocationId := None)
    {
      connection := Gesture(true, Some(fromId), x, y);
      selectedLocationId := None;
    }

    /** `completeConnectionCommand`; `id` is the fresh id a new connection would get. */
    method CompleteConnection(toId: Id, id: Id)
      modifies this, projects.current
      ensures connection == IDLE
      ensures view == old(view) && selectedLocationId == old(selectedLocationId) && selectedConnectionId == old(selectedConnectionId)
      ensures State() == old(State()).(connection := IDLE)
      ensures !Present(old(connection.fromId)) || old(connection.fromId).value == toId ==> Document() == old(Document())
      ensures Present(old(connection.fromId)) && old(connection.fromId).value != toId && projects.current != null ==>
                && projects.current.data == old(projects.current.data).(connections :=
                     Connected(old(projects.current.data.connections), Connection(id, "Nova conexão", "", old(connection.fromId).value, toId, None)))
                && projects.current.changesUnsaved ==
                     (old(projects.current.changesUnsaved) || |LinksBetween(old(projects.current.data.connections), old(connection.fromId).value, toId)| == 0)
    {
      if Present(connection.fromId) && connection.fromId.value != toId {
        if projects.current != null {
          projects.current.ConnectLocations("Nova conexão", "", connection.fromId.value, toId, id);
        }
      }
      CancelConnection();
    }

    method CancelConnection()
      modifies this
      ensures connection == IDLE
      ensures view == old(view) && selectedLocationId == old(selectedLocationId) && selectedConnectionId == old(selectedConnectionId)
      ensures State() == old(State()).(connection := IDLE)
    {
      connection := IDLE;
    }

    /** `setViewCommand`; an argument that is absent is `None`. */
    method SetView(x: Option<real>, y: Option<real>, k: Option<real>)
      modifies this
      ensures view == ViewSet(old(view), x, y, k) && connection == old(connection)
      ensures selectedLocationId == old(selectedLocationId) && selectedConnectionId == old(selectedConnectionId)
      ensures State() == old(State()).(view := ViewSet(old(view), x, y, k))
    {
      if Truthy(x) { view := view.(x := x.value); }
      if Truthy(y) { view := view.(y := y.value); }
      if Truthy(k) { view := view.(k := k.value); }
    }

    /** `toggleCalibrationCommand`. */
    method ToggleCalibration()
      modifies this
      ensures isCalibrating == !old(isCalibrating)
      ensures isCalibrating ==> selectedLocationId == None && selectedConnectionId == None
      ensures !isCalibrating ==> selectedLocationId == old(selectedLocationId) && selectedConnectionId == old(selectedConnectionId)
      ensures view == old(view) && connection == old(connection)
      ensures State() == old(State()).(isCalibrating := !old(isCalibrating),
                                       selectedLocationId := selectedLocationId, selectedConnectionId := selectedConnectionId)
    {
      isCalibrating := !isCalibrating;
      if isCalibrating {
        selectedLocationId := None;
        selectedConnectionId := None;
      }
    }
  }
}
