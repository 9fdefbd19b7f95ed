/**
 * The command registry: an insertion-ordered dictionary from command id to handler and
 * options. Executing a command flagged `addToHistory` takes a history snapshot before the
 * handler runs, so one undo reverts the whole command.
 */
module Commands {
  import opened Wrappers
  import opened Model
  import opened JsMaps
  import opened History

  /** An entry offered by a command's argument picker; `caption` is its `label` (`icon` is not modelled). */
  datatype PaletteItem = PaletteItem(caption: string, description: Option<string>, value: Json)

  /** Lists the picker's entries for the open project (`undefined` is `None`). */
  type ArgsProvider = Option<Live> -> Option<seq<PaletteItem>>

  datatype CommandOptions = CommandOptions(
    description: Option<string>, addToHistory: Option<bool>, argsProvider: Option<ArgsProvider>)

  /** The third argument of `register`: absent, a description string, or an options object. */
  datatype OptionsArg = NoOptions | Description(text: string) | Options(options: CommandOptions)

  /**
   * What a document handler leaves behind: the open project after it ran (`None` when it
   * closed the project or none was open), and the error it threw, if any. Changes made
   * before a throw stay in place.
   */
  datatype Effect = Effect(live: Option<Live>, error: Option<string>)

  /**
   * A handler. The two history commands call the engine; every other handler is given the
   * open project, or `None` when there is none, and decides for itself what to do and
   * whether to throw.
   */
  datatype Handler =
    | UndoHandler
    | RedoHandler
    | DocumentHandler(run: (Json, Option<Live>) -> Effect)

  datatype Command = Command(handler: Handler, options: CommandOptions)

  /** How the promise returned by `execute` settles. */
  datatype Outcome = Resolved | Rejected(reason: string)

  /** The options `register` stores for its third argument. */
  function OptionsOf(arg: OptionsArg): (r: CommandOptions)
    ensures arg.Options? ==> r == arg.options
    ensures !arg.Options? ==> r.addToHistory.None? && r.argsProvider.None?
    ensures arg.Description? ==> r.description == Some(arg.text)
    ensures arg.NoOptions? ==> r.description.None?
  {
    match arg
    case NoOptions => CommandOptions(None, None, None)
    case Description(text) => CommandOptions(Some(text), None, None)
    case Options(options) => options
  }

  predicate Flagged(c: Command) {
    c.options.addToHistory == Some(true)
  }

  /** The registry after `register(id, handler, arg)`. */
  function Registered(m: JsMap<string, Command>, id: string, h: Handler, arg: OptionsArg): (r: JsMap<string, Command>)
    requires Valid(m)
    ensures Valid(r)
    ensures Get(r, id) == Some(Command(h, OptionsOf(arg)))
    ensures forall j :: j != id ==> Get(r, j) == Get(m, j)
  {
    Set(m, id, Command(h, OptionsOf(arg)))
  }

  /** Running a handler on a session, once the optional snapshot has been taken. */
  function Ran(h: Handler, s: Session, args: Json): (r: (Session, Outcome))
    ensures !h.DocumentHandler? ==> r.1 == Resolved
    ensures !h.DocumentHandler? && s.live.None? ==> r == (s, Resolved)
    ensures h.DocumentHandler? ==>
              && r.0.past == s.past && r.0.future == s.future
              && r.0.live == h.run(args, s.live).live
              && (r.1 == Resolved <==> h.run(args, s.live).error.None?)
              && (r.1.Rejected? ==> Some(r.1.reason) == h.run(args, s.live).error)
  {
    match h
    case UndoHandler => (Undone(s), Resolved)
    case RedoHandler => (Redone(s), Resolved)
    case DocumentHandler(run) =>
      var effect := run(args, s.live);
      (Session(s.past, s.future, effect.live),
       if effect.error.None? then Resolved else Rejected(effect.error.value))
  }

  /** `execute(id, args)`: the new session and how the returned promise settles. */
  function Executed(m: JsMap<string, Command>, s: Session, id: string, args: Json): (r: (Session, Outcome))
    ensures Get(m, id).None? ==> r == (s, Resolved)
    ensures Get(m, id).Some? && !Flagged(Get(m, id).value) ==> r == Ran(Get(m, id).value.handler, s, args)
    ensures Get(m, id).Some? && Flagged(Get(m, id).value) ==> r == Ran(Get(m, id).value.handler, Captured(s), args)
  {
    match Get(m, id)
    case None => (s, Resolved)
    case Some(c) => Ran(c.handler, if Flagged(c) then Captured(s) else s, args)
  }

  /**
   * A flagged document command run on an open project leaves its snapshot on `past` and
   * `future` empty, whether the handler finished or threw part way. While a project is
   * still open afterwards, one undo brings back the document from before the command and
   * the command's result is the only redo entry.
   */
  lemma FlaggedCommandIsUndoable(m: JsMap<string, Command>, s: Session, id: string, args: Json)
    requires Get(m, id).Some? && Flagged(Get(m, id).value) && Get(m, id).value.handler.DocumentHandler?
    requires s.live.Some?
    ensures var after := Executed(m, s, id, args).0;
            && after.past == Pushed(s.past, s.live.value.data) && after.future == []
            && (after.live.Some? ==>
                  && Undone(after).live == Some(Live(s.live.value.data, true))
                  && Undone(after).future == [after.live.value.data]
                  && Undone(after).past == Pushed(s.past, s.live.value.data)[..|Pushed(s.past, s.live.value.data)| - 1])
  {
    var c := Get(m, id).value;
    var captured := Captured(s);
    assert captured.past == Pushed(s.past, s.live.value.data);
    var after := Ran(c.handler, captured, args).0;
    assert after.past == captured.past && after.future == [];
  }

  /** An unflagged document command leaves both history stacks alone. */
  lemma UnflaggedCommandKeepsHistory(m: JsMap<string, Command>, s: Session, id: string, args: Json)
    requires Get(m, id).Some? && !Flagged(Get(m, id).value) && Get(m, id).value.handler.DocumentHandler?
    ensures Executed(m, s, id, args).0.past == s.past
    ensures Executed(m, s, id, args).0.future == s.future
  {
  }

  /** Once unregistered, executing the id resolves without touching anything. */
  lemma UnregisteredIsInert(m: JsMap<string, Command>, s: Session, id: string, args: Json)
    requires Valid(m)
    ensures Executed(Delete(m, id), s, id, args) == (s, Resolved)
  {
  }

  /**
   * `getAll` after `register`: a new id appends its command at the end; a known id has its
   * command replaced where it stood.
   */
  lemma RegisteredListing(m: JsMap<string, Command>, id: string, h: Handler, arg: OptionsArg)
    requires Valid(m)
    ensures id !in m.entries ==> Values(Registered(m, id, h, arg)) == Values(m) + [Command(h, OptionsOf(arg))]
    ensures id in m.entries ==>
              && |Values(Registered(m, id, h, arg))| == |Values(m)|
              && forall i :: 0 <= i < |m.keys| ==>
                   Values(Registered(m, id, h, arg))[i] == if m.keys[i] == id then Command(h, OptionsOf(arg)) else Values(m)[i]
  {
    SetValues(m, id, Command(h, OptionsOf(arg)));
  }

  const UNDO_ID := "history:undo"
  const REDO_ID := "history:redo"

  /** The two commands `registerHistoryController` adds, both with a description only. */
  function WithHistoryCommands(m: JsMap<string, Command>): (r: JsMap<string, Command>)
    requires Valid(m)
    ensures Valid(r)
    ensures Get(r, UNDO_ID) == Some(Command(UndoHandler, CommandOptions(Some("Desfazer a última ação"), None, None)))
    ensures Get(r, REDO_ID) == Some(Command(RedoHandler, CommandOptions(Some("Refazer a ação desfeita"), None, None)))
    ensures forall j :: j != UNDO_ID && j != REDO_ID ==> Get(r, j) == Get(m, j)
  {
    Registered(Registered(m, UNDO_ID, UndoHandler, Description("Desfazer a última ação")),
               REDO_ID, RedoHandler, Description("Refazer a ação desfeita"))
  }

  /** The history commands are not flagged: running them is exactly one undo or redo. */
  lemma HistoryCommandsRunEngine(m: JsMap<string, Command>, s: Session, args: Json)
    requires Valid(m)
    ensures Executed(WithHistoryCommands(m), s, UNDO_ID, args) == (Undone(s), Resolved)
    ensures Executed(WithHistoryCommands(m), s, REDO_ID, args) == (Redone(s), Resolved)
  {
  }

  class CommandManager {
    const history: HistoryStore
    var commands: JsMap<string, Command>

    constructor (history: HistoryStore)
      ensures this.history == history && commands == Empty()
    {
      this.history := history;
      commands := Empty();
    }

    ghost predicate Valid()
      reads this
    {
      JsMaps.Valid(commands)
    }

    method Register(id: string, handler: Handler, descriptionOrOptions: OptionsArg)
      requires Valid()
      modifies this
      ensures Valid()
      ensures commands == Registered(old(commands), id, handler, descriptionOrOptions)
    {
      var options := CommandOptions(None, None, None);
      match descriptionOrOptions {
        case Description(text) => options := CommandOptions(Some(text), None, None);
        case Options(o) => options := o;
        case NoOptions =>
      }
      commands := Set(commands, id, Command(handler, options));
    }

    method Unregister(id: string)
      requires Valid()
      modifies this
      ensures Valid()
      ensures commands == Delete(old(commands), id)
    {
      commands := Delete(commands, id);
    }

    method Execute(id: string, args: Json) returns (outcome: Outcome)
      modifies history, history.projects, history.projects.current
      ensures (history.State(), outcome) == Executed(commands, old(history.State()), id, args)
    {
      var command := Get(commands, id);
      if command.None? {
        return Resolved;
      }
      var c := command.value;
      if c.options.addToHistory == Some(true) {
        history.Capture();
      }
      outcome := RunHandler(c.handler, args);
    }

    /** `await command.handler(args)`, with a throw turned into the rejection reason. */
    method RunHandler(handler: Handler, args: Json) returns (outcome: Outcome)
      modifies history, history.projects, history.projects.current
      ensures (history.State(), outcome) == Ran(handler, old(history.State()), args)
    {
      match handler {
        case UndoHandler =>
          history.Undo();
          outcome := Resolved;
        case RedoHandler =>
          history.Redo();
          outcome := Resolved;
        case DocumentHandler(run) =>
          var current := history.projects.current;
          var effect := run(args, if current == null then None else Some(current.Current()));
          if effect.live.None? {
            history.projects.current := null;
          } else if current == null {
            var created := new ProjectStore.ActiveProject(effect.live.value.data, history.projects.absent);
            created.changesUnsaved := effect.live.value.changesUnsaved;
            history.projects.current := created;
          } else {
            current.data := effect.live.value.data;
            current.changesUnsaved := effect.live.value.changesUnsaved;
          }
          outcome := if effect.error.None? then Resolved else Rejected(effect.error.value);
      }
    }

    method GetAll() returns (r: seq<Command>)
      requires Valid()
      ensures r == Values(commands)
    {
      r := Values(commands);
    }

    /** `registerHistoryController`. */
    method RegisterHistoryController()
      requires Valid()
      modifies this
      ensures Valid()
      ensures commands == WithHistoryCommands(old(commands))
    {
      Register(UNDO_ID, UndoHandler, Description("Desfazer a última ação"));
      Register(REDO_ID, RedoHandler, Description("Refazer a ação desfeita"));
    }
  }
}
