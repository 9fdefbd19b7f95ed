/**
 * The history engine: two stacks of full document snapshots. `capture` pushes the open
 * document onto `past` (keeping at most MAX_HISTORY entries) and clears `future`;
 * `undo` and `redo` swap the live document with the top of one stack, pushing it onto
 * the other. Snapshots are datatype values, so a snapshot is a deep copy by construction.
 */
module History {
  import opened Wrappers
  import opened Model
  import opened ProjectStore

  const MAX_HISTORY: nat := 50

  /** What the engine acts on: both stacks and the open project, if there is one. */
  datatype Session = Session(past: seq<ProjectData>, future: seq<ProjectData>, live: Option<Live>)

  /** `past.push(snapshot)`, then one `shift()` if the stack outgrew the cap. */
  function Pushed(past: seq<ProjectData>, snapshot: ProjectData): (r: seq<ProjectData>)
    ensures |r| == if |past| < MAX_HISTORY then |past| + 1 else |past|
    ensures r[|r| - 1] == snapshot
    ensures r[..|r| - 1] == past[|past| + 1 - |r|..]
  {
    var grown := past + [snapshot];
    assert grown[..|grown| - 1] == past;
    if |grown| > MAX_HISTORY then grown[1..] else grown
  }

  /** `capture`. */
  function Captured(s: Session): (r: Session)
    ensures s.live.None? ==> r == s
    ensures s.live.Some? ==> r.live == s.live && r.future == [] && r.past == Pushed(s.past, s.live.value.data)
  {
    if s.live.None? then s
    else Session(Pushed(s.past, s.live.value.data), [], s.live)
  }

  /** `undo`. */
  function Undone(s: Session): (r: Session)
    ensures |s.past| == 0 || s.live.None? ==> r == s
    ensures |s.past| > 0 && s.live.Some? ==>
              && r.live == Some(Live(s.past[|s.past| - 1], true))
              && r.past == s.past[..|s.past| - 1]
              && r.future == s.future + [s.live.value.data]
  {
    if |s.past| == 0 || s.live.None? then s
    else Session(s.past[..|s.past| - 1], s.future + [s.live.value.data], Some(Live(s.past[|s.past| - 1], true)))
  }

  /** `redo`: like `undo` with the stacks exchanged; it does not apply the cap. */
  function Redone(s: Session): (r: Session)
    ensures |s.future| == 0 || s.live.None? ==> r == s
    ensures |s.future| > 0 && s.live.Some? ==>
              && r.live == Some(Live(s.future[|s.future| - 1], true))
              && r.future == s.future[..|s.future| - 1]
              && r.past == s.past + [s.live.value.data]
  {
    if |s.future| == 0 || s.live.None? then s
    else Session(s.past + [s.live.value.data], s.future[..|s.future| - 1], Some(Live(s.future[|s.future| - 1], true)))
  }

  /** The engine's invariant: both stacks together never hold more than the cap. */
  ghost predicate Bounded(s: Session) {
    |s.past| + |s.future| <= MAX_HISTORY
  }

  lemma BoundedPreserved(s: Session)
    requires Bounded(s)
    ensures Bounded(Captured(s)) && Bounded(Undone(s)) && Bounded(Redone(s))
  {
  }

  /** What may happen to a session: the three engine calls, or any change to the open project. */
  datatype Step = CaptureStep | UndoStep | RedoStep | EditStep(live: Option<Live>)

  function Run(s: Session, steps: seq<Step>): Session
    decreases |steps|
  {
    if |steps| == 0 then s
    else
      var next := match steps[0]
        case CaptureStep => Captured(s)
        case UndoStep => Undone(s)
        case RedoStep => Redone(s)
        case EditStep(l) => Session(s.past, s.future, l);
      Run(next, steps[1..])
  }

  /** Starting from empty stacks, no sequence of calls and edits breaks the bound. */
  lemma {:induction false} ReachableBounded(s: Session, steps: seq<Step>)
    requires Bounded(s)
    ensures Bounded(Run(s, steps))
    decreases |steps|
  {
    if |steps| > 0 {
      BoundedPreserved(s);
      var next := match steps[0]
        case CaptureStep => Captured(s)
        case UndoStep => Undone(s)
        case RedoStep => Redone(s)
        case EditStep(l) => Session(s.past, s.future, l);
      ReachableBounded(next, steps[1..]);
    }
  }

  /** `undo` then `redo` gives back the document and both stacks; only the flag is now set. */
  lemma UndoThenRedo(s: Session)
    requires |s.past| > 0 && s.live.Some?
    ensures Redone(Undone(s)) == Session(s.past, s.future, Some(Live(s.live.value.data, true)))
  {
    assert s.past[..|s.past| - 1] + [s.past[|s.past| - 1]] == s.past;
    assert (s.future + [s.live.value.data])[..|s.future|] == s.future;
  }

  /** A capture after an undo discards the undone state: the following `redo` does nothing. */
  lemma CaptureAfterUndoBlocksRedo(s: Session)
    ensures Redone(Captured(Undone(s))) == Captured(Undone(s))
  {
  }

  /** Capture then undo brings back the document as it was at the capture, with one redo entry. */
  lemma CaptureThenUndo(s: Session)
    requires s.live.Some?
    ensures Undone(Captured(s)).live == Some(Live(s.live.value.data, true))
    ensures Undone(Captured(s)).future == [s.live.value.data]
    ensures Undone(Captured(s)).past == Pushed(s.past, s.live.value.data)[..|Pushed(s.past, s.live.value.data)| - 1]
  {
  }

  /**
   * Capture, then any change to the open document: one undo brings back the document as
   * it was at the capture, and the changed document becomes the only redo entry.
   */
  lemma UndoRevertsEdit(s: Session, edited: Live)
    requires s.live.Some?
    ensures var after := Session(Captured(s).past, Captured(s).future, Some(edited));
            && Undone(after).live == Some(Live(s.live.value.data, true))
            && Undone(after).future == [edited.data]
  {
  }

  /**
   * A new project "Aurora", a flagged command that adds the character "Mira", then undo
   * and redo: undo empties the character list again and redo brings back the same record.
   */
  lemma AuroraScenario(id: Id, dir: string, now: string, mira: Character)
    ensures var created := NewProject(id, "Aurora", dir, now);
            var edited := created.(characters := created.characters + [mira]);
            var captured := Captured(Session([], [], Some(Live(created, false))));
            var afterAdd := Session(captured.past, captured.future, Some(Live(edited, true)));
            && |afterAdd.past| == 1
            && Undone(afterAdd).live.value.data.characters == []
            && Redone(Undone(afterAdd)).live.value.data.characters == [mira]
  {
  }

  class HistoryStore {
    const projects: ProjectStore
    var past: seq<ProjectData>
    var future: seq<ProjectData>

    constructor (projects: ProjectStore)
      ensures this.projects == projects && past == [] && future == []
    {
      this.projects := projects;
      past, future := [], [];
    }

    /** The session this store and the open project form together. */
    function State(): Session
      reads this, projects, projects.current
    {
      Session(past, future, if projects.current == null then None else Some(projects.current.Current()))
    }

    method Capture()
      modifies this
      ensures State() == Captured(old(State()))
    {
      if projects.current == null {
        return;
      }
      var snapshot := projects.current.data;
      past := past + [snapshot];
      if |past| > MAX_HISTORY {
        past := past[1..];
      }
      future := [];
    }

    method Undo()
      modifies this, projects.current
      ensures State() == Undone(old(State()))
    {
      if |past| == 0 || projects.current == null {
        return;
      }
      var currentSnapshot := projects.current.data;
      future := future + [currentSnapshot];
      var previousState := past[|past| - 1];
      past := past[..|past| - 1];
      projects.current.data := previousState;
      projects.current.changesUnsaved := true;
    }

    method Redo()
      modifies this, projects.current
      ensures State() == Redone(old(State()))
    {
      if |future| == 0 || projects.current == null {
        return;
      }
      var currentSnapshot := projects.current.data;
      past := past + [currentSnapshot];
      var nextState := future[|future| - 1];
      future := future[..|future| - 1];
      projects.current.data := nextState;
      projects.current.changesUnsaved := true;
    }
  }
}
