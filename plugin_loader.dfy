/**
 * The plugin loader: `init` resets the bridge, empties the registry of loaded plugins and
 * then loads every folder of the plugins directory in turn. Each folder fails on its own:
 * a failure is reported with a toast and loading carries on with the next folder.
 */
module Loader {
  import opened Wrappers
  import opened Seqs
  import opened JsMaps
  import opened PluginApi
  import opened Toasts
  import Bridge

  datatype Manifest = Manifest(id: string, name: string, version: string, description: Option<string>, main: string)

  /** A callback a plugin's `init` subscribed through its context. */
  datatype Subscription = Subscription(event: string, listener: Listener)

  /**
   * What loading one folder comes to. Reading the manifest or the script, parsing the
   * manifest and running the script are outside the model; only their outcome is kept.
   * `Crashed` and `Initialized` carry the subscriptions `init` made before it returned
   * or threw.
   */
  datatype FolderOutcome =
    | Unreadable
    | NoInit(manifest: Manifest)
    | Crashed(manifest: Manifest, subscriptions: seq<Subscription>)
    | Initialized(manifest: Manifest, subscriptions: seq<Subscription>)

  /** An entry of the plugins directory, with what loading it would give. */
  datatype DirEntry = DirEntry(name: string, isDirectory: bool, outcome: FolderOutcome)

  /** The registry, the listener table and the toasts raised so far. */
  datatype LoadState = LoadState(plugins: JsMap<string, Manifest>, listeners: Table, toasts: seq<ToastRequest>)

  ghost predicate ValidState(st: LoadState) {
    Valid(st.plugins) && Valid(st.listeners)
  }

  const ACCESS_FAILURE := ToastRequest("Falha ao acessar pasta de plugins", Error, 3000)

  function LoadFailure(folder: string): ToastRequest {
    ToastRequest("Erro ao carregar plugin: " + folder, Error, 3000)
  }

  function InitMissing(m: Manifest): ToastRequest {
    ToastRequest("Plugin " + m.name + " inválido: função init não encontrada.", Error, 5000)
  }

  function CrashReport(m: Manifest): ToastRequest {
    ToastRequest("Crash no plugin " + m.name, Error, 4000)
  }

  /** The table after a run of `events.on` calls, in order. */
  function SubscribeAll(t: Table, subs: seq<Subscription>): (r: Table)
    requires Valid(t)
    ensures Valid(r)
    decreases |subs|
  {
    if |subs| == 0 then t
    else
      var last := subs[|subs| - 1];
      Subscribed(SubscribeAll(t, subs[..|subs| - 1]), last.event, last.listener)
  }

  /** A folder that is attempted and does not end in a recorded plugin. */
  predicate Fails(e: DirEntry) {
    e.isDirectory && !e.outcome.Initialized?
  }

  function IsDirectory(e: DirEntry): bool {
    e.isDirectory
  }

  function FailingEntry(e: DirEntry): bool {
    Fails(e)
  }

  /** `loadPluginFromFolder` and `executeScript` for one entry of the directory. */
  function Visit(st: LoadState, e: DirEntry): (r: LoadState)
    requires ValidState(st)
    ensures ValidState(r)
    ensures !e.isDirectory ==> r == st
    ensures Fails(e) ==> r.plugins == st.plugins && |r.toasts| == |st.toasts| + 1
    ensures e.isDirectory && e.outcome.Initialized? ==>
              r.plugins == Set(st.plugins, e.outcome.manifest.id, e.outcome.manifest) && r.toasts == st.toasts
  {
    if !e.isDirectory then st
    else match e.outcome
      case Unreadable => st.(toasts := st.toasts + [LoadFailure(e.name)])
      case NoInit(m) => st.(toasts := st.toasts + [InitMissing(m)])
      case Crashed(m, subs) =>
        st.(listeners := SubscribeAll(st.listeners, subs), toasts := st.toasts + [CrashReport(m)])
      case Initialized(m, subs) =>
        st.(plugins := Set(st.plugins, m.id, m), listeners := SubscribeAll(st.listeners, subs))
  }

  /** The `for` loop over the entries, in enumeration order. */
  function Load(st: LoadState, entries: seq<DirEntry>): (r: LoadState)
    requires ValidState(st)
    ensures ValidState(r)
    decreases |entries|
  {
    if |entries| == 0 then st else Visit(Load(st, entries[..|entries| - 1]), entries[|entries| - 1])
  }

  const START := LoadState(Empty(), Empty(), [])

  /** A visit appends its toasts to whatever was raised before. */
  lemma VisitAppendsToasts(st: LoadState, e: DirEntry)
    requires ValidState(st)
    ensures var v := Visit(st.(toasts := []), e);
            Visit(st, e) == v.(toasts := st.toasts + v.toasts)
  {
  }

  /** `init`: `accessible` is whether `mkdir` and `readDir` succeeded. */
  function InitResult(accessible: bool, entries: seq<DirEntry>): (r: LoadState)
    ensures ValidState(r)
    ensures !accessible ==> r == LoadState(Empty(), Empty(), [ACCESS_FAILURE])
    ensures accessible ==> r == Load(START, entries)
  {
    if !accessible then START.(toasts := [ACCESS_FAILURE]) else Load(START, entries)
  }

  lemma {:induction false} LoadAppend(st: LoadState, a: seq<DirEntry>, b: seq<DirEntry>)
    requires ValidState(st)
    ensures Load(st, a + b) == Load(Load(st, a), b)
    decreases |b|
  {
    if |b| == 0 {
      assert a + b == a;
    } else {
      assert (a + b)[..|a + b| - 1] == a + b[..|b| - 1];
      LoadAppend(st, a, b[..|b| - 1]);
    }
  }

  /** Entries that are not directories are skipped: loading only the directories is the same. */
  lemma {:induction false} OnlyDirectoriesAttempted(st: LoadState, entries: seq<DirEntry>)
    requires ValidState(st)
    ensures Load(st, entries) == Load(st, Filter(entries, IsDirectory))
    decreases |entries|
  {
    if |entries| > 0 {
      var init := entries[..|entries| - 1];
      var last := entries[|entries| - 1];
      assert entries == init + [last];
      FilterAppend(init, [last], IsDirectory);
      OnlyDirectoriesAttempted(st, init);
      LoadAppend(st, Filter(init, IsDirectory), Filter([last], IsDirectory));
      if last.isDirectory {
        assert Filter([last], IsDirectory) == [last];
        assert Load(Load(st, Filter(init, IsDirectory)), [last]) == Visit(Load(st, Filter(init, IsDirectory)), last) by {
          assert [last][..0] == [];
        }
      } else {
        assert Filter([last], IsDirectory) == [];
      }
    }
  }

  /** The manifest the last successfully initialised folder recorded under `id`, if any. */
  function LastInitialized(entries: seq<DirEntry>, id: string): Option<Manifest>
    decreases |entries|
  {
    if |entries| == 0 then None
    else
      var last := entries[|entries| - 1];
      if last.isDirectory && last.outcome.Initialized? && last.outcome.manifest.id == id then Some(last.outcome.manifest)
      else LastInitialized(entries[..|entries| - 1], id)
  }

  /**
   * After loading, `loadedPlugins` holds under each id the manifest of the last folder
   * whose `init` completed with that id; folders that failed record nothing.
   */
  lemma {:induction false} RecordedPlugins(st: LoadState, entries: seq<DirEntry>, id: string)
    requires ValidState(st)
    ensures Get(Load(st, entries).plugins, id) ==
              if LastInitialized(entries, id).Some? then LastInitialized(entries, id) else Get(st.plugins, id)
    decreases |entries|
  {
    if |entries| > 0 {
      RecordedPlugins(st, entries[..|entries| - 1], id);
    }
  }

  /** A recorded manifest comes from a folder whose `init` completed. */
  lemma {:induction false} LastInitializedWitness(entries: seq<DirEntry>, id: string)
    requires LastInitialized(entries, id).Some?
    ensures exists i :: 0 <= i < |entries| && entries[i].isDirectory && entries[i].outcome.Initialized?
              && entries[i].outcome.manifest == LastInitialized(entries, id).value && entries[i].outcome.manifest.id == id
    decreases |entries|
  {
    var last := entries[|entries| - 1];
    if !(last.isDirectory && last.outcome.Initialized? && last.outcome.manifest.id == id) {
      LastInitializedWitness(entries[..|entries| - 1], id);
      var i :| 0 <= i < |entries| - 1 && entries[..|entries| - 1][i].isDirectory && entries[..|entries| - 1][i].outcome.Initialized?
                && entries[..|entries| - 1][i].outcome.manifest == LastInitialized(entries, id).value
                && entries[..|entries| - 1][i].outcome.manifest.id == id;
      assert entries[i] == entries[..|entries| - 1][i];
    }
  }

  /** Every failing folder raises exactly one toast; loaded plugins raise none. */
  lemma {:induction false} OneToastPerFailure(st: LoadState, entries: seq<DirEntry>)
    requires ValidState(st)
    ensures |Load(st, entries).toasts| == |st.toasts| + |Filter(entries, FailingEntry)|
    decreases |entries|
  {
    if |entries| > 0 {
      var init := entries[..|entries| - 1];
      var last := entries[|entries| - 1];
      assert entries == init + [last];
      FilterAppend(init, [last], FailingEntry);
      OneToastPerFailure(st, init);
      if FailingEntry(last) {
        assert Filter([last], FailingEntry) == [last];
      } else {
        assert Filter([last], FailingEntry) == [];
      }
    }
  }

  /** What ends up in the registry depends on the registry alone, not on toasts or listeners. */
  lemma {:induction false} PluginsIndependent(a: LoadState, b: LoadState, entries: seq<DirEntry>)
    requires ValidState(a) && ValidState(b) && a.plugins == b.plugins
    ensures Load(a, entries).plugins == Load(b, entries).plugins
    decreases |entries|
  {
    if |entries| > 0 {
      PluginsIndependent(a, b, entries[..|entries| - 1]);
    }
  }

  /** A failing folder does not change which plugins the other folders record. */
  lemma FailureIsolated(st: LoadState, before: seq<DirEntry>, bad: DirEntry, after: seq<DirEntry>)
    requires ValidState(st) && Fails(bad)
    ensures Load(st, before + [bad] + after).plugins == Load(st, before + after).plugins
  {
    LoadAppend(st, before + [bad], after);
    LoadAppend(st, before, [bad]);
    assert [bad][..0] == [];
    LoadAppend(st, before, after);
    PluginsIndependent(Load(st, before + [bad]), Load(st, before), after);
  }

  /** After `init`, only callbacks subscribed by this run's plugins are left. */
  lemma InitForgetsEarlierListeners(accessible: bool, entries: seq<DirEntry>, event: string)
    requires forall i :: 0 <= i < |entries| ==> NotSubscribing(entries[i], event)
    ensures ListenersOf(InitResult(accessible, entries).listeners, event) == []
  {
    if accessible {
      NoSubscriberForEvent(START, entries, event);
    }
  }

  /** The folder's plugin subscribes nothing to `event`. */
  ghost predicate NotSubscribing(e: DirEntry, event: string) {
    (e.outcome.Crashed? || e.outcome.Initialized?) ==>
      forall j :: 0 <= j < |e.outcome.subscriptions| ==> e.outcome.subscriptions[j].event != event
  }

  lemma {:induction false} SubscribeAllOther(t: Table, subs: seq<Subscription>, event: string)
    requires Valid(t)
    requires forall j :: 0 <= j < |subs| ==> subs[j].event != event
    ensures ListenersOf(SubscribeAll(t, subs), event) == ListenersOf(t, event)
    decreases |subs|
  {
    if |subs| > 0 {
      SubscribeAllOther(t, subs[..|subs| - 1], event);
    }
  }

  lemma {:induction false} NoSubscriberForEvent(st: LoadState, entries: seq<DirEntry>, event: string)
    requires ValidState(st)
    requires forall i :: 0 <= i < |entries| ==> NotSubscribing(entries[i], event)
    ensures ListenersOf(Load(st, entries).listeners, event) == ListenersOf(st.listeners, event)
    decreases |entries|
  {
    if |entries| > 0 {
      var init := entries[..|entries| - 1];
      NoSubscriberForEvent(st, init, event);
      var last := entries[|entries| - 1];
      assert NotSubscribing(last, event);
      if last.isDirectory && (last.outcome.Crashed? || last.outcome.Initialized?) {
        SubscribeAllOther(Load(st, init).listeners, last.outcome.subscriptions, event);
      }
    }
  }

  class PluginLoader {
    const bridge: Bridge.PluginBridge
    var loadedPlugins: JsMap<string, Manifest>

    constructor (bridge: Bridge.PluginBridge)
      ensures this.bridge == bridge && loadedPlugins == Empty()
    {
      this.bridge := bridge;
      loadedPlugins := Empty();
    }

    /** `init`; `toasts` are the notifications it raises, in order. */
    method Init(accessible: bool, entries: seq<DirEntry>) returns (toasts: seq<ToastRequest>)
      modifies this, bridge
      ensures LoadState(loadedPlugins, bridge.listeners, toasts) == InitResult(accessible, entries)
    {
      bridge.Reset();
      loadedPlugins := Empty();
      toasts := [];
      if !accessible {
        toasts := [ACCESS_FAILURE];
        return;
      }
      var i := 0;
      while i < |entries|
        invariant 0 <= i <= |entries|
        invariant bridge.Valid() && Valid(loadedPlugins)
        invariant LoadState(loadedPlugins, bridge.listeners, toasts) == Load(START, entries[..i])
      {
        assert entries[..i + 1][..i] == entries[..i];
        assert Load(START, entries[..i + 1]) == Visit(Load(START, entries[..i]), entries[i]);
        toasts := VisitEntry(entries[i], toasts);
        i := i + 1;
      }
      assert entries[..i] == entries;
    }

    /** One turn of the loop in `init`: folders are attempted, files skipped. */
    method VisitEntry(entry: DirEntry, toasts: seq<ToastRequest>) returns (after: seq<ToastRequest>)
      requires bridge.Valid() && Valid(loadedPlugins)
      modifies this, bridge
      ensures bridge.Valid() && Valid(loadedPlugins)
      ensures LoadState(loadedPlugins, bridge.listeners, after) == Visit(LoadState(old(loadedPlugins), old(bridge.listeners), toasts), entry)
    {
      after := toasts;
      if entry.isDirectory {
        var reported := LoadPluginFromFolder(entry);
        VisitAppendsToasts(LoadState(old(loadedPlugins), old(bridge.listeners), toasts), entry);
        after := toasts + reported;
      }
    }

    /** One directory: the outcome's toast, its subscriptions and, on success, its record. */
    method LoadPluginFromFolder(entry: DirEntry) returns (reported: seq<ToastRequest>)
      requires entry.isDirectory && bridge.Valid() && Valid(loadedPlugins)
      modifies this, bridge
      ensures bridge.Valid() && Valid(loadedPlugins)
      ensures var next := Visit(LoadState(old(loadedPlugins), old(bridge.listeners), []), entry);
              loadedPlugins == next.plugins && bridge.listeners == next.listeners && reported == next.toasts
    {
      match entry.outcome {
        case Unreadable =>
          reported := [LoadFailure(entry.name)];
        case NoInit(m) =>
          reported := [InitMissing(m)];
        case Crashed(m, subs) =>
          Subscribe(subs);
          reported := [CrashReport(m)];
        case Initialized(m, subs) =>
          Subscribe(subs);
          loadedPlugins := Set(loadedPlugins, m.id, m);
          reported := [];
      }
    }

    /** The `events.on` calls a plugin's `init` makes. */
    method Subscribe(subs: seq<Subscription>)
      requires bridge.Valid()
      modifies bridge
      ensures bridge.Valid()
      ensures bridge.listeners == SubscribeAll(old(bridge.listeners), subs)
    {
      var j := 0;
      while j < |subs|
        invariant 0 <= j <= |subs|
        invariant bridge.Valid()
        invariant bridge.listeners == SubscribeAll(old(bridge.listeners), subs[..j])
      {
        assert subs[..j + 1][..j] == subs[..j];
        bridge.On(subs[j].event, subs[j].listener);
        j := j + 1;
      }
      assert subs[..j] == subs;
    }
  }
}
