# TaleArchitect core in Dafny

TaleArchitect is a desktop editor for fictional worlds: one project holds
characters, map locations, connections between locations and timeline events.
This project models the in-memory core of that editor and proves properties of
the model:

- the snapshot undo/redo engine;
- the command registry and the undo/redo commands registered on it;
- the active project and its mutators, and the project store;
- the plugin bridges (the current one, `apiVersion` '1.1.0', and the older one, `version` '1.0.0') and the plugin loader;
- the timeline, characters, map and workspace controllers;
- the app, tab, recent-projects and toast stores.

Each stateful singleton of the application is a Dafny `class`: `HistoryStore`,
`CommandManager`, `ProjectStore`, `ActiveProject`, `PluginBridge`,
`PluginLoader`, `TimelineController`, `CharacterState`, `MapState`,
`AppState`, `UIManager`, `RecentProjectsStore`, `ToastStore` and
`WorkspaceController`. Each class holds the fields of its source object that
the core's operations read or write; the few it does not hold are listed under
"Left out". `WorkspaceController` has no source object: it gathers the
functions of `workspaceController.ts` and the stores they use. The singletons
a class talks to are `const` references.

Almost every state-changing method is specified by a pure function of the old
state, of the form `ensures State() == Undone(old(State()))`. The properties the
application promises are proved as lemmas about those functions:

- history stays bounded;
- undo after a flagged command restores the document;
- a later registration wins;
- metadata reads back what was written;
- one toast is raised per failing plugin folder;
- toggling a participant twice restores membership;
- the settings tab stays last;
- recent projects stay unique by directory and sorted newest first;
- and so on.

Values the application takes from the outside become parameters of the
operations:

- fresh ids (`crypto.randomUUID`) and timestamps (`new Date()`);
- the answer to a confirmation dialog (`confirmed`);
- whether a file write succeeds (`writeSucceeds`);
- whether the plugin folder can be read, and what each plugin folder turns out
  to be (`DirEntry.outcome`: loaded, unreadable, no `init`, or crashed).

Plugin listeners are values carrying their response to a payload. A command
handler is an abstract effect on the document that may fail.

Modules:

- `Wrappers`: `Option`.
- `Seqs`: JavaScript `find`, `findIndex`, `filter`, `indexOf`.
- `Sorting`: a stable sort by comparator, which is what `Array.prototype.sort`
  does with a consistent comparator.
- `JsMaps`: the insertion-ordered JavaScript `Map`.
- `Model`: the record types and the Gregorian calendar.
- The remaining modules each model one core source file.

The four methods that callers use but `ActiveProject` never defines are
modelled as fields of an `AbsentMembers` record of abstract functions, and
nothing is claimed about their effect. Those methods are `removeLocation`,
`removeEvent`, `removeConnection` and `updateEvent`.

## Model

| member | source | states |
|---|---|---|
| History.Pushed | src/lib/stores/history.svelte.ts:14-18 | pushing a snapshot grows `past` by one up to 50, drops the oldest entry beyond that, puts the snapshot last and keeps the rest in order |
| History.Captured | src/lib/stores/history.svelte.ts:9-21 | with no project nothing changes (future kept); otherwise the pre-call document is pushed last on `past`, `future` is emptied and the document is untouched |
| History.Undone | src/lib/stores/history.svelte.ts:23-35 | with empty `past` or no project nothing changes; otherwise the document becomes the old top of `past`, marked unsaved, and the pre-undo document is pushed on `future` |
| History.Redone | src/lib/stores/history.svelte.ts:37-49 | mirror of undo: with empty `future` or no project nothing changes; otherwise the document becomes the top of `future` and the pre-redo document is pushed on `past` |
| History.BoundedPreserved | src/lib/stores/history.svelte.ts:3-49 | capture, undo and redo all preserve that the two stacks together hold at most 50 snapshots and `past` alone at most 50 |
| History.ReachableBounded | src/lib/stores/history.svelte.ts:3-49 | every sequence of captures, undos and redos from a bounded state stays bounded |
| History.UndoThenRedo | src/lib/stores/history.svelte.ts:23-49 | undo followed by redo restores the pre-undo document, `past` and `future` (document marked unsaved) |
| History.CaptureAfterUndoBlocksRedo | src/lib/stores/history.svelte.ts:20-38 | after undo then capture, redo is a no-op because `future` is empty |
| History.CaptureThenUndo | src/lib/stores/history.svelte.ts:9-35 | undo right after capture gives back the captured document, with that document alone on `future` |
| History.UndoRevertsEdit | src/lib/stores/history.svelte.ts:9-35 | capture, then any edit, then undo restores the document as it was before the edit and puts the edited document on `future` |
| History.AuroraScenario | src/lib/stores/history.svelte.ts:9-49 | concrete run: create a project, capture, add a character, undo removes it and redo brings it back |
| History.HistoryStore.constructor | src/lib/stores/history.svelte.ts:5-7 | both stacks start empty |
| History.HistoryStore.Capture | src/lib/stores/history.svelte.ts:9-21 | the new stacks and document are `Captured` of the old ones |
| History.HistoryStore.Undo | src/lib/stores/history.svelte.ts:23-35 | the new stacks, document and dirty flag are `Undone` of the old ones |
| History.HistoryStore.Redo | src/lib/stores/history.svelte.ts:37-49 | the new stacks, document and dirty flag are `Redone` of the old ones |
| Commands.OptionsOf | src/lib/services/commands.ts:28-33 | a string becomes `{description}`, no argument becomes `{}`, an options object is stored as given |
| Commands.Registered | src/lib/services/commands.ts:27-35 | after register the id maps to the new handler and options (the last registration wins) and every other id is unchanged |
| Commands.Ran | src/lib/services/commands.ts:48-56 | every handler runs, with or without a project: a document handler is given the open project or none, may change, open or close the document but never touches `past` or `future`, and the outcome is a rejection exactly when it throws, carrying its message; undo/redo handlers never fail |
| Commands.Executed | src/lib/services/commands.ts:41-57 | an unknown id is a no-op; every registered handler runs, with or without a project; an unflagged command runs it on the unchanged history; a flagged command runs it after exactly one capture |
| Commands.FlaggedCommandIsUndoable | src/lib/services/commands.ts:48-56 | on an open project a flagged command leaves its snapshot on `past` and an empty `future`, whether or not its handler fails; while a project is still open afterwards, one undo restores the document from before the call, leaves the command's result as the only redo entry and puts `past` back where it was |
| Commands.UnflaggedCommandKeepsHistory | src/lib/services/commands.ts:48-53 | an unflagged document command never changes `past` or `future` |
| Commands.UnregisteredIsInert | src/lib/services/commands.ts:37-46 | after unregister, executing that id does nothing |
| Commands.RegisteredListing | src/lib/services/commands.ts:34-61 | listing: a new id is appended at the end; a known id keeps its position and the length, with only that entry replaced |
| Commands.WithHistoryCommands | src/lib/controllers/historyController.ts:5-6 | `history:undo` and `history:redo` are registered with only a description, so they are unflagged and have no argsProvider; other ids are untouched |
| Commands.HistoryCommandsRunEngine | src/lib/controllers/historyController.ts:5-6 | executing `history:undo` / `history:redo` is exactly one undo / redo step, with no capture |
| Commands.CommandManager.constructor | src/lib/services/commands.ts:24-25 | the registry starts empty |
| Commands.CommandManager.Register | src/lib/services/commands.ts:27-35 | the new table is `Registered` of the old one |
| Commands.CommandManager.Unregister | src/lib/services/commands.ts:37-39 | the entry for the id is deleted; absent ids leave the table unchanged |
| Commands.CommandManager.Execute | src/lib/services/commands.ts:41-57 | the new history and the outcome are `Executed` of the old history |
| Commands.CommandManager.RunHandler | src/lib/services/commands.ts:53 | the handler's effect and outcome are `Ran`: the open project is updated in place, a new one is opened or the project is closed, as the handler's effect says |
| Commands.CommandManager.GetAll | src/lib/services/commands.ts:59-61 | returns the registered commands in insertion order, one per id |
| Commands.CommandManager.RegisterHistoryController | src/lib/controllers/historyController.ts:4-7 | the table becomes `WithHistoryCommands` of the old one |
| ProjectStore.Merge | src/lib/stores/project.svelte.ts:29 | no contract of its own: `{...c, ...updates}`; `MergeIdempotent` states its laws |
| ProjectStore.MergeIdempotent | src/lib/stores/project.svelte.ts:29 | each field the patch carries replaces the record's and every other field and the metadata are kept; so an empty patch changes nothing and applying a patch twice is applying it once |
| ProjectStore.UpdatedCharacters | src/lib/stores/project.svelte.ts:26-32 | unknown id: list unchanged; otherwise only the first matching index is replaced by the merge of the updates over it |
| ProjectStore.Connected | src/lib/stores/project.svelte.ts:49-61 | no-op when a connection joins the two ids in either direction, otherwise appends the new connection |
| ProjectStore.ConnectBothWays | src/lib/stores/project.svelte.ts:50 | connecting (A,B) and then (B,A) is the same as connecting (A,B) once, leaving exactly one link between A and B when none existed |
| ProjectStore.DayLeIsTotalPreorder | src/lib/stores/project.svelte.ts:79-85 | the (year, month, day) comparator is total and transitive |
| ProjectStore.AddedEventsSorted | src/lib/stores/project.svelte.ts:63-85 | after `addEvent` the events grow by one, are the old events plus the new one, and are sorted by (year, month, day) |
| ProjectStore.NewProject | src/lib/stores/project.svelte.ts:92-104 | no contract of its own: the record `create` builds; `ProjectStore.ProjectStore.Create` states what it opens |
| ProjectStore.ActiveProject.constructor | src/lib/stores/project.svelte.ts:10-12 | holds the given data and starts saved |
| ProjectStore.ActiveProject.AddCharacter | src/lib/stores/project.svelte.ts:14-24 | appends exactly one character with the given fields, changes nothing else, sets dirty |
| ProjectStore.ActiveProject.UpdateCharacter | src/lib/stores/project.svelte.ts:26-32 | characters become `UpdatedCharacters`; dirty is set only when the id exists |
| ProjectStore.ActiveProject.RemoveCharacter | src/lib/stores/project.svelte.ts:34-37 | keeps exactly the characters with another id, in order; events are untouched; dirty is always set |
| ProjectStore.ActiveProject.AddLocation | src/lib/stores/project.svelte.ts:39-47 | appends one location at (x, y), sets dirty |
| ProjectStore.ActiveProject.ConnectLocations | src/lib/stores/project.svelte.ts:49-61 | connections become `Connected`; dirty is set only when a connection was appended |
| ProjectStore.ActiveProject.AddEvent | src/lib/stores/project.svelte.ts:63-77 | events become the stable sort, by day, of the old events plus the new one; sets dirty |
| ProjectStore.ActiveProject.SortEvents | src/lib/stores/project.svelte.ts:79-85 | events become their stable sort by (year, month, day); dirty untouched |
| ProjectStore.ActiveProject.RemoveLocation | src/lib/services/pluginBridge.svelte.ts:151-155 | the effect of the missing `removeLocation` is left abstract (see Left out) |
| ProjectStore.ActiveProject.RemoveEvent | src/lib/services/pluginBridge.svelte.ts:157-161 | the effect of the missing `removeEvent` is left abstract |
| ProjectStore.ActiveProject.RemoveConnection | src/lib/services/pluginBridge.svelte.ts:163-167 | the effect of the missing `removeConnection` is left abstract |
| ProjectStore.ActiveProject.UpdateEvent | src/lib/services/pluginBridge.svelte.ts:125-129 | the effect of the missing `updateEvent` is left abstract |
| ProjectStore.ProjectStore.constructor | src/lib/stores/project.svelte.ts:88-89 | no project is open |
| ProjectStore.ProjectStore.Create | src/lib/stores/project.svelte.ts:91-107 | a fresh project with empty characters, locations, connections and events and `autosave` false becomes current; the save may fail |
| ProjectStore.ProjectStore.Save | src/lib/stores/project.svelte.ts:126-136 | no project: nothing; otherwise data unchanged, dirty cleared exactly when the write succeeds, and a failed write is reported as thrown |
| ProjectStore.ProjectStore.Close | src/lib/stores/project.svelte.ts:147-149 | no project is current afterwards |
| Model.SumDays | src/lib/controllers/timelineController.svelte.ts:34 | no contract of its own: the `reduce` over month lengths; `SumDaysAppend` states that it is additive and `GregorianYear` that it gives 365 for the Gregorian table |
| Model.SumDaysAppend | src/lib/controllers/timelineController.svelte.ts:34 | the day count of a calendar is additive over concatenation |
| Model.GregorianYear | src/lib/models/project.ts:3-16 | the Gregorian calendar has 12 months, February has 28 days and the year sums to 365 |
| PluginApi.Subscribed | src/lib/services/pluginBridge.svelte.ts:253-258 | `on` appends the callback to the event's list (creating it when absent); other events' lists are unchanged |
| PluginApi.Fanout | src/lib/services/pluginBridge.svelte.ts:283-294 | listeners are called in subscription order; the first failure stops the rest and is the error; with no failure every listener is called |
| PluginApi.FanoutAppend | src/lib/services/pluginBridge.svelte.ts:283-294 | a listener subscribed later is reached only when every earlier one succeeded |
| PluginApi.ResetSilences | src/lib/services/pluginBridge.svelte.ts:296-298 | after reset every event reaches no listener and raises no error |
| PluginApi.SubscribeIsolated | src/lib/services/pluginBridge.svelte.ts:253-258 | subscribing to one event does not change what another event delivers |
| PluginApi.FactoryReply | src/lib/services/pluginBridge.svelte.ts:171-235 | a factory call resolves to the new id exactly when no listener of the `*:added` event fails |
| PluginApi.GetCharacters | src/lib/services/pluginBridge.svelte.ts:81-85 | the characters of the project, or `[]` with none (same in src/lib/services/pluginBridge.ts:26-30) |
| PluginApi.GetLocations | src/lib/services/pluginBridge.svelte.ts:86-90 | the locations of the project, or `[]` with none (same in src/lib/services/pluginBridge.ts:31-35) |
| PluginApi.GetConnections | src/lib/services/pluginBridge.svelte.ts:91-95 | the connections of the project, or `[]` with none |
| PluginApi.GetEvents | src/lib/services/pluginBridge.svelte.ts:96-100 | the events of the project, or `[]` with none (same in src/lib/services/pluginBridge.ts:36-40) |
| PluginApi.GetCalendar | src/lib/services/pluginBridge.svelte.ts:101-105 | the calendar of the project, or null exactly when none is open (same in src/lib/services/pluginBridge.ts:41-44) |
| PluginApi.GetCurrentDate | src/lib/services/pluginBridge.svelte.ts:106-109 | the timeline's current date, or null exactly when no project is open |
| PluginApi.Ids | src/lib/services/pluginBridge.svelte.ts:16-32 | the ids of one entity kind, index for index |
| PluginApi.FindEntity | src/lib/services/pluginBridge.svelte.ts:16-32 | null exactly when no project is open or no kind holds the id; otherwise the first match in the first kind that has it, in the order characters, locations, events, connections |
| PluginApi.WithMetadata | src/lib/services/pluginBridge.svelte.ts:58 | writing metadata leaves every id list and the calendar unchanged, stores exactly the given metadata at that entity, changes no other field of that record and no other record of any list |
| PluginApi.MetadataGet | src/lib/services/pluginBridge.svelte.ts:45-49 | null exactly when the entity is not found; otherwise what the plugin stored, with falsy or missing values read as `{}` |
| PluginApi.MetadataSet | src/lib/services/pluginBridge.svelte.ts:50-63 | no project: no-op; unknown entity: error and no capture; otherwise one capture, future cleared, dirty set, and the new document is the old one with that entity's metadata replaced by its old metadata (or `{}`) with `pluginId` set to the data |
| PluginApi.FindEntityByIds | src/lib/services/pluginBridge.svelte.ts:16-32 | lookup depends only on the four id lists |
| PluginApi.MetadataSetKeepsLookup | src/lib/services/pluginBridge.svelte.ts:50-63 | setting metadata does not change where any entity is found |
| PluginApi.MetadataRoundTrip | src/lib/services/pluginBridge.svelte.ts:45-63 | after `set`, `get` for the same plugin returns the data (or `{}` if it is falsy) and other plugins read what they read before |
| PluginApi.StoredAfterWrite | src/lib/services/pluginBridge.svelte.ts:48-58 | the per-plugin slot written is the one read back, and other slots are kept |
| PluginApi.MetadataSetUndoable | src/lib/services/pluginBridge.svelte.ts:55 | undo after a metadata write restores the document from before the write |
| PluginApi.SpreadLocations | src/lib/services/pluginBridge.svelte.ts:117-123 | `{...changes, ...existing}`: every declared field of every location is kept; only a missing `metadata` can be filled in, so with full records the list is unchanged |
| PluginApi.SpreadConnections | src/lib/services/pluginBridge.svelte.ts:131-137 | the same for connections |
| PluginApi.LocationUpdatedPayload | src/lib/services/pluginBridge.svelte.ts:117-123 | `location:updated` carries, for a known id, the changes overlaid by the stored record (stored fields win); for an unknown id it carries the changes alone, as the source does on the first such call (see Left out) |
| PluginApi.ConnectionUpdatedPayload | src/lib/services/pluginBridge.svelte.ts:131-137 | `connection:updated` carries, for a known id, the changes overlaid by the stored record (stored fields win); for an unknown id it carries the changes alone, as the source does on the first such call (see Left out) |
| PluginApi.NewCharacter | src/lib/services/pluginBridge.svelte.ts:177-183 | no contract of its own: the record `createCharacter` builds; `CharacterCreated` states that exactly it is appended |
| PluginApi.NewPluginEvent | src/lib/services/pluginBridge.svelte.ts:199-206 | no contract of its own: the record `createEvent` builds; `EventCreated` states that exactly it is appended |
| PluginApi.NewPluginLocation | src/lib/services/pluginBridge.svelte.ts:222-227 | no contract of its own: the record `createLocation` builds; `LocationCreated` states that exactly it is appended |
| PluginApi.CapturedEdit | src/lib/services/pluginBridge.svelte.ts:171-235 | a factory edit is one capture followed by a dirty document; undo restores the document before it |
| PluginApi.CharacterCreated | src/lib/services/pluginBridge.svelte.ts:171-191 | `createCharacter` appends exactly one character (image null) and changes nothing else; it records one capture, clears `future`, sets the dirty flag, and undo restores the document before it |
| PluginApi.EventCreated | src/lib/services/pluginBridge.svelte.ts:193-214 | `createEvent` appends one event (`locationId ''`, no participants) and changes nothing else; it records one capture, clears `future`, sets the dirty flag, and undo restores the document before it |
| PluginApi.LocationCreated | src/lib/services/pluginBridge.svelte.ts:216-235 | `createLocation` appends one location and changes nothing else; it records one capture, clears `future`, sets the dirty flag, and undo restores the document before it |
| PluginApi.CreatedEventMayBreakOrder | src/lib/services/pluginBridge.svelte.ts:203-206 | unlike `addEvent`, the factory does not sort: an earlier-dated event lands out of order |
| Bridge.PluginBridge.constructor | src/lib/services/pluginBridge.svelte.ts:13-14 | no listeners |
| Bridge.PluginBridge.On | src/lib/services/pluginBridge.svelte.ts:253-258 | the table becomes `Subscribed` of the old one |
| Bridge.PluginBridge.EmitInternal | src/lib/services/pluginBridge.svelte.ts:283-294 | the delivery is the ordered fan-out over the event's listeners |
| Bridge.PluginBridge.Reset | src/lib/services/pluginBridge.svelte.ts:296-298 | every listener list is gone |
| Bridge.PluginBridge.SetMetadata | src/lib/services/pluginBridge.svelte.ts:50-63 | history, document and error are `MetadataSet` of the old session |
| Bridge.PluginBridge.UpdateCharacter | src/lib/services/pluginBridge.svelte.ts:111-115 | the project's `updateCharacter`, with no capture |
| Bridge.PluginBridge.UpdateLocation | src/lib/services/pluginBridge.svelte.ts:117-123 | locations become `SpreadLocations`, dirty untouched, `location:updated` emitted with its payload |
| Bridge.PluginBridge.UpdateEvent | src/lib/services/pluginBridge.svelte.ts:125-129 | delegates to the missing `updateEvent` |
| Bridge.PluginBridge.UpdateConnection | src/lib/services/pluginBridge.svelte.ts:131-137 | connections become `SpreadConnections`, dirty untouched, `connection:updated` emitted |
| Bridge.PluginBridge.UpdateCalendar | src/lib/services/pluginBridge.svelte.ts:139-143 | replaces the months, with no capture and no dirty flag |
| Bridge.PluginBridge.RemoveCharacter | src/lib/services/pluginBridge.svelte.ts:145-149 | the project's `removeCharacter` |
| Bridge.PluginBridge.RemoveLocation | src/lib/services/pluginBridge.svelte.ts:151-155 | delegates to the missing `removeLocation` |
| Bridge.PluginBridge.RemoveEvent | src/lib/services/pluginBridge.svelte.ts:157-161 | delegates to the missing `removeEvent` |
| Bridge.PluginBridge.RemoveConnection | src/lib/services/pluginBridge.svelte.ts:163-167 | delegates to the missing `removeConnection` |
| Bridge.PluginBridge.CreateCharacter | src/lib/services/pluginBridge.svelte.ts:171-191 | no project: null and nothing changes; otherwise the session becomes `CharacterCreated`, `character:added` is emitted and the id returned |
| Bridge.PluginBridge.CreateEvent | src/lib/services/pluginBridge.svelte.ts:193-214 | no project: null; otherwise `EventCreated`, `event:added` emitted, id returned |
| Bridge.PluginBridge.CreateLocation | src/lib/services/pluginBridge.svelte.ts:216-235 | no project: null; otherwise `LocationCreated`, `location:added` emitted, id returned |
| LegacyBridge.PluginBridge.constructor | src/lib/services/pluginBridge.ts:10-11 | no listeners |
| LegacyBridge.PluginBridge.On | src/lib/services/pluginBridge.ts:108-115 | appends the callback to the event's list, creating it if absent |
| LegacyBridge.PluginBridge.EmitInternal | src/lib/services/pluginBridge.ts:118-129 | ordered fan-out that stops at the first listener error |
| LegacyBridge.PluginBridge.CreateCharacter | src/lib/services/pluginBridge.ts:48-68 | no project: null; otherwise one capture, one character with image null, dirty set, `character:added` emitted |
| LegacyBridge.PluginBridge.CreateEvent | src/lib/services/pluginBridge.ts:70-91 | no project: null; otherwise one capture, one event with `locationId ''` and no participants, `event:added` emitted |
| Loader.SubscribeAll | src/lib/services/pluginLoader.ts:58-83 | the subscriptions a plugin's `init` makes keep the listener table well formed |
| Loader.Visit | src/lib/services/pluginLoader.ts:31-83 | a non-directory is skipped; a failing folder adds one report and no record; a folder whose `init` completes is recorded under its manifest id (overwriting a duplicate) |
| Loader.Load | src/lib/services/pluginLoader.ts:31-35 | visiting every entry in order keeps the state well formed |
| Loader.VisitAppendsToasts | src/lib/services/pluginLoader.ts:42-83 | one folder's reports are appended after the earlier ones and do not depend on them |
| Loader.InitResult | src/lib/services/pluginLoader.ts:18-40 | listeners and records are cleared first; an unreadable plugin folder yields only the access-failure report; otherwise every entry is loaded in order from the cleared state |
| Loader.LoadAppend | src/lib/services/pluginLoader.ts:31-35 | loading `a + b` is loading `a`, then `b` |
| Loader.OnlyDirectoriesAttempted | src/lib/services/pluginLoader.ts:32 | the result is the same as loading only the directory entries |
| Loader.RecordedPlugins | src/lib/services/pluginLoader.ts:73-75 | an id is recorded with the manifest of the last folder with that id whose `init` completed, or the earlier record if there is none |
| Loader.LastInitializedWitness | src/lib/services/pluginLoader.ts:73-75 | such a record always comes from a directory entry whose `init` completed |
| Loader.OneToastPerFailure | src/lib/services/pluginLoader.ts:52-82 | the number of reports is exactly the number of failing directory entries |
| Loader.PluginsIndependent | src/lib/services/pluginLoader.ts:42-83 | the records after loading depend only on the records before, not on listeners or reports |
| Loader.FailureIsolated | src/lib/services/pluginLoader.ts:42-56 | inserting a failing folder anywhere leaves the records of all other folders as they would have been |
| Loader.InitForgetsEarlierListeners | src/lib/services/pluginLoader.ts:21 | listeners subscribed before `init` are gone afterwards unless a plugin subscribes again |
| Loader.SubscribeAllOther | src/lib/services/pluginLoader.ts:58-83 | subscriptions to other events leave an event's listener list unchanged |
| Loader.NoSubscriberForEvent | src/lib/services/pluginLoader.ts:31-35 | when no loaded plugin subscribes to an event, its listener list is what it was |
| Loader.PluginLoader.constructor | src/lib/services/pluginLoader.ts:16 | no plugin recorded |
| Loader.PluginLoader.Init | src/lib/services/pluginLoader.ts:18-40 | the records, listener table and reports are `InitResult` |
| Loader.PluginLoader.VisitEntry | src/lib/services/pluginLoader.ts:31-35 | one iteration of the init loop is `Visit` |
| Loader.PluginLoader.LoadPluginFromFolder | src/lib/services/pluginLoader.ts:42-56 | loading one folder is `Visit` of that directory entry |
| Loader.PluginLoader.Subscribe | src/lib/services/pluginLoader.ts:73-75 | a plugin's `init` subscriptions are applied in order |
| Timeline.DaysInYear | src/lib/controllers/timelineController.svelte.ts:32-35 | 365 with no project; otherwise the days before the month past the last, so the year is exactly as long as all its months together |
| Timeline.GregorianDaysInYear | src/lib/controllers/timelineController.svelte.ts:32-35 | days in a year are the sum of the month lengths, 365 with no project and for the Gregorian calendar |
| Timeline.MonthsCounted | src/lib/controllers/timelineController.svelte.ts:43-47 | months before the given one are counted only when they exist in the calendar |
| Timeline.DateValue | src/lib/controllers/timelineController.svelte.ts:37-53 | 0 with no project; otherwise, for a time of day within one day, the value divided by 1440 is the day number and the remainder the minutes past midnight |
| Timeline.DaysBeforeStep | src/lib/controllers/timelineController.svelte.ts:43-47 | moving to the next month adds that month's length |
| Timeline.DaysBeforeMonotone | src/lib/controllers/timelineController.svelte.ts:43-47 | the days before a month never decrease with the month |
| Timeline.DayOfYearBounds | src/lib/controllers/timelineController.svelte.ts:37-53 | a valid date's day of the year lies in 1 .. days in year |
| Timeline.YearsOutweighDays | src/lib/controllers/timelineController.svelte.ts:49 | an earlier year always gives fewer days than a later one |
| Timeline.AtLeastOnce | src/lib/controllers/timelineController.svelte.ts:49 | arithmetic step for the year term (k * y >= y) |
| Timeline.MinutesFollowDays | src/lib/controllers/timelineController.svelte.ts:51 | an earlier day gives fewer minutes whatever the time of day |
| Timeline.DateValueFollowsCalendar | src/lib/controllers/timelineController.svelte.ts:37-53 | for valid dates, a date earlier in the calendar (year, month, day) has strictly smaller date value |
| Timeline.LaterDayIsLater | src/lib/controllers/timelineController.svelte.ts:43-51 | same year and month, larger day: strictly larger date value |
| Timeline.HourTwentyFourIsNextDay | src/lib/controllers/timelineController.svelte.ts:51 | hours are not bounded, so hour 24 of day 1 equals hour 0 of the next day |
| Timeline.EarlierOrSameIsTotalPreorder | src/lib/controllers/timelineController.svelte.ts:21-23 | the date-value comparator is total and transitive |
| Timeline.SortedEvents | src/lib/controllers/timelineController.svelte.ts:19-24 | `[]` with no project; otherwise a permutation of the events ordered by date value, leaving `events` itself alone |
| Timeline.CurrentDate | src/lib/controllers/timelineController.svelte.ts:26-30 | 1/1/1 without a time when there is no project or no event; otherwise the date of one of the project's events (`CurrentDateIsLatest` adds that no event is later) |
| Timeline.CurrentDateIsLatest | src/lib/controllers/timelineController.svelte.ts:26-30 | the current date is the date of some event and no event is later |
| Timeline.NoEventsNoDate | src/lib/controllers/timelineController.svelte.ts:26-30 | with no events the current date is 1/1/1 |
| Timeline.Toggled | src/lib/controllers/timelineController.svelte.ts:55-62 | an absent id is appended; a present one loses one occurrence |
| Timeline.SpliceShifts | src/lib/controllers/timelineController.svelte.ts:59 | `splice(index, 1)` shifts the later ids down by one |
| Timeline.SpliceOut | src/lib/controllers/timelineController.svelte.ts:59 | on a list without duplicates, splicing removes that id and keeps every other |
| Timeline.AppendFresh | src/lib/controllers/timelineController.svelte.ts:60 | appending an absent id keeps the list free of duplicates |
| Timeline.ToggleFlipsMembership | src/lib/controllers/timelineController.svelte.ts:55-62 | toggling flips membership of that id only and keeps the list free of duplicates |
| Timeline.ToggleInThenOut | src/lib/controllers/timelineController.svelte.ts:55-62 | toggling an absent id in and out restores the list exactly |
| Timeline.ToggleLast | src/lib/controllers/timelineController.svelte.ts:55-62 | toggling the last id drops it |
| Timeline.ToggleTwice | src/lib/controllers/timelineController.svelte.ts:55-62 | toggling twice restores the multiset, and the exact list when the id was absent or last |
| Timeline.ToggleOutThenIn | src/lib/controllers/timelineController.svelte.ts:55-62 | a present id toggled twice moves to the end |
| Timeline.ToggleTwiceMovesToEnd | src/lib/controllers/timelineController.svelte.ts:55-62 | concrete witness: `[a, b]` toggled twice on `a` is `[b, a]` |
| Timeline.BlankForm | src/lib/controllers/timelineController.svelte.ts:64-74 | no contract of its own: the form `resetForm` writes; `BlankFormDate` states its date, empty name and no participants |
| Timeline.BlankFormDate | src/lib/controllers/timelineController.svelte.ts:64-74 | the reset form starts at the current date when events exist, else at 1/1/1 12:00, with no participants and an empty name |
| Timeline.EditForm | src/lib/controllers/timelineController.svelte.ts:81-93 | no contract of its own: the form `openEdit` copies from an event; `EditFormRoundTrip` states that saving it back gives the event |
| Timeline.EditFormRoundTrip | src/lib/controllers/timelineController.svelte.ts:86-92 | saving the form filled from an event under that event's id gives the event back, apart from its metadata |
| Timeline.Saved | src/lib/controllers/timelineController.svelte.ts:97-116 | no contract of its own: the document after `saveEvent`; `SaveAddsEvent` states the add branch and `TimelineController.SaveEvent` uses it |
| Timeline.SaveAddsEvent | src/lib/controllers/timelineController.svelte.ts:97-116 | saving without a selection adds exactly the new event, keeps events sorted by day and sets dirty |
| Timeline.TimelineController.constructor | src/lib/controllers/timelineController.svelte.ts:8-17 | list view, nothing selected, an empty form dated 1/1/1 00:00 |
| Timeline.TimelineController.GetDateValue | src/lib/controllers/timelineController.svelte.ts:37-53 | the loop over the months computes `DateValue` |
| Timeline.TimelineController.ToggleCharacterInForm | src/lib/controllers/timelineController.svelte.ts:55-62 | form participants become `Toggled`; nothing else changes |
| Timeline.TimelineController.ResetForm | src/lib/controllers/timelineController.svelte.ts:64-74 | nothing selected and the form is the blank form |
| Timeline.TimelineController.OpenCreate | src/lib/controllers/timelineController.svelte.ts:76-79 | blank form in form view |
| Timeline.TimelineController.OpenEdit | src/lib/controllers/timelineController.svelte.ts:81-95 | unknown id: nothing changes; otherwise the event is loaded into the form, selected, form view, navigation to the timeline tab |
| Timeline.TimelineController.SaveEvent | src/lib/controllers/timelineController.svelte.ts:97-116 | empty name or no project: nothing changes; otherwise the selected event is updated or a new one added, then list view with nothing selected and a blank form |
| Timeline.TimelineController.DeleteEvent | src/lib/controllers/timelineController.svelte.ts:118-127 | without selection, project or confirmation nothing changes; otherwise the event is removed and the form closed |
| Timeline.TimelineController.CancelForm | src/lib/controllers/timelineController.svelte.ts:129-132 | list view, nothing selected, blank form |
| Characters.ImageOrNull | src/lib/controllers/charactersController.svelte.ts:33 | an empty or missing image is stored as null |
| Characters.EventsOf | src/lib/controllers/charactersController.svelte.ts:99-102 | `[]` without a project or `charId`; otherwise exactly the project's events that include the character, each as often as in the project (a multiset equality with the filtered event list), in chronological order |
| Characters.CharacterItems | src/lib/controllers/charactersController.svelte.ts:107-134 | undefined with no project; otherwise one item per character, captioned by its name, with value `{id}` |
| Characters.CharacterCommandFlags | src/lib/controllers/charactersController.svelte.ts:104-146 | exactly `char:save`, `char:delete` and `char:image:remove` are flagged for history |
| Characters.CharacterState.constructor | src/lib/controllers/charactersController.svelte.ts:8-18 | list view, nothing selected, empty form |
| Characters.CharacterState.ResetForm | src/lib/controllers/charactersController.svelte.ts:94-97 | nothing selected; empty name and description, null image |
| Characters.CharacterState.OpenCreate | src/lib/controllers/charactersController.svelte.ts:20-24 | empty form in form view, navigation to the characters tab |
| Characters.CharacterState.OpenEdit | src/lib/controllers/charactersController.svelte.ts:26-36 | unknown id: nothing changes; otherwise name, description and image are copied to the form, the character selected, form view |
| Characters.CharacterState.CloseForm | src/lib/controllers/charactersController.svelte.ts:40-43 | list view with the form reset |
| Characters.CharacterState.Save | src/lib/controllers/charactersController.svelte.ts:45-64 | empty name: no-op; otherwise the selected character is updated (dirty set exactly when its id is found) or a new one added (dirty set), then list view with the form reset |
| Characters.CharacterState.Delete | src/lib/controllers/charactersController.svelte.ts:66-77 | declined: nothing; confirmed: the character is removed, and the form closes only if it was selected |
| Characters.CharacterState.RemoveImage | src/lib/controllers/charactersController.svelte.ts:90-92 | only the form's image becomes null |
| MapController.ZoomedIn | src/lib/controllers/mapController.svelte.ts:67-69 | zoom in adds 0.2 and never exceeds 5 |
| MapController.ZoomedOut | src/lib/controllers/mapController.svelte.ts:71-73 | zoom out subtracts 0.2 and never goes below 0.1 |
| MapController.ZoomStaysInRange | src/lib/controllers/mapController.svelte.ts:67-73 | from a zoom in range, both steps stay in [0.1, 5] and move in the right direction |
| MapController.ZoomOutUndoesZoomIn | src/lib/controllers/mapController.svelte.ts:67-73 | away from the upper bound, zoom out undoes zoom in |
| MapController.ViewSet | src/lib/controllers/mapController.svelte.ts:96-100 | each component is replaced only by a truthy argument |
| MapController.ZeroArgumentsKeepView | src/lib/controllers/mapController.svelte.ts:96-100 | zero or missing arguments leave the view unchanged, and the command is idempotent |
| MapController.MapCommandFlags | src/lib/controllers/mapController.svelte.ts:148-175 | exactly `map:location:create`, `map:selection:delete` and `map:connection:complete` are flagged for history |
| MapController.MapState.constructor | src/lib/controllers/mapController.svelte.ts:8-23 | home view `{0,0,1}`, idle gesture, nothing selected |
| MapController.MapState.CreateLocation | src/lib/controllers/mapController.svelte.ts:42-44 | appends "Novo Local" at (x, y) when a project is open |
| MapController.MapState.DeleteSelection | src/lib/controllers/mapController.svelte.ts:46-61 | a selected location takes priority over a connection; declined or nothing selected: nothing changes; confirmed: the item is removed and that selection cleared; no other field of `mapState` changes |
| MapController.MapState.ResetCamera | src/lib/controllers/mapController.svelte.ts:63-65 | view back to `{0,0,1}` (every other field of `mapState`, `isPanning`, `isCalibrating` and `draggingNodeId` included, is unchanged) |
| MapController.MapState.ZoomIn | src/lib/controllers/mapController.svelte.ts:67-69 | only `k` changes, to `ZoomedIn` (every other field of `mapState`, `isPanning`, `isCalibrating` and `draggingNodeId` included, is unchanged) |
| MapController.MapState.ZoomOut | src/lib/controllers/mapController.svelte.ts:71-73 | only `k` changes, to `ZoomedOut` (every other field of `mapState`, `isPanning`, `isCalibrating` and `draggingNodeId` included, is unchanged) |
| MapController.MapState.StartConnection | src/lib/controllers/mapController.svelte.ts:75-83 | active gesture from `fromId` at the cursor; the selected location is cleared; nothing else in `mapState` changes |
| MapController.MapState.CompleteConnection | src/lib/controllers/mapController.svelte.ts:85-90 | connects only from a non-null `fromId` other than `toId`, setting the dirty flag exactly when the two were not yet joined; always ends with the gesture idle and no other field of `mapState` changed |
| MapController.MapState.CancelConnection | src/lib/controllers/mapController.svelte.ts:92-94 | the gesture becomes idle (every other field of `mapState`, `isPanning`, `isCalibrating` and `draggingNodeId` included, is unchanged) |
| MapController.MapState.SetView | src/lib/controllers/mapController.svelte.ts:96-100 | the view becomes `ViewSet` (every other field of `mapState`, `isPanning`, `isCalibrating` and `draggingNodeId` included, is unchanged) |
| MapController.MapState.ToggleCalibration | src/lib/controllers/mapController.svelte.ts:102-109 | flips calibration; turning it on clears both selections; nothing else in `mapState` changes |
| App.InWorkspace | src/lib/stores/app.svelte.ts:5-7 | workspace view, active tab unchanged |
| App.AtLauncher | src/lib/stores/app.svelte.ts:8-11 | launcher view with tab `map`, which is the initial state |
| App.TransitionsIdempotent | src/lib/stores/app.svelte.ts:2-11 | both transitions are idempotent, and leaving the workspace forgets the tab |
| App.AppState.constructor | src/lib/stores/app.svelte.ts:2-3 | launcher view, tab `map` |
| App.AppState.GoToWorkspace | src/lib/stores/app.svelte.ts:5-7 | the state becomes `InWorkspace` |
| App.AppState.GoToLauncher | src/lib/stores/app.svelte.ts:8-11 | the state becomes `AtLauncher` |
| UiTabs.ByOrderIsTotalPreorder | src/lib/stores/ui.svelte.ts:39-43 | the order comparator is total and transitive |
| UiTabs.Registered | src/lib/stores/ui.svelte.ts:31-40 | exactly one tab is added, with the second-to-last tab's order plus one, and the result is sorted by order |
| UiTabs.CanonicalSorted | src/lib/stores/ui.svelte.ts:24-40 | the tab list shape (orders 1..n+3, then settings at 200) is sorted |
| UiTabs.InsertedBeforeSettings | src/lib/stores/ui.svelte.ts:37-39 | a tab ordered just after the others lands right before settings |
| UiTabs.RegisterBeforeSettings | src/lib/stores/ui.svelte.ts:31-40 | registration inserts the new tab right before settings and keeps that shape |
| UiTabs.RegisterStep | src/lib/stores/ui.svelte.ts:31-40 | one registration keeps the shape |
| UiTabs.RegisterAll | src/lib/stores/ui.svelte.ts:31-40 | each registration adds exactly one tab |
| UiTabs.SettingsStaysLast | src/lib/stores/ui.svelte.ts:24-40 | while fewer than 197 tabs have been registered, settings stays last |
| UiTabs.InitialIsCanonical | src/lib/stores/ui.svelte.ts:24-29 | the initial 4 tabs have orders 1, 2, 3 and 200 |
| UiTabs.SettingsLosesLastPlace | src/lib/stores/ui.svelte.ts:37-39 | the 197th registration gets order 200 and is sorted after settings |
| UiTabs.UIManager.constructor | src/lib/stores/ui.svelte.ts:24-29 | the initial tabs |
| UiTabs.UIManager.RegisterTab | src/lib/stores/ui.svelte.ts:31-40 | the tabs become `Registered` of the old ones |
| UiTabs.UIManager.SortedTabs | src/lib/stores/ui.svelte.ts:42-44 | a sorted permutation of `tabs`, leaving `tabs` untouched |
| Recent.NewestFirstIsTotalPreorder | src/lib/stores/recent.svelte.ts:51 | the newest-first comparator is total and transitive |
| Recent.SortedNewestFirst | src/lib/stores/recent.svelte.ts:50-51 | a permutation sorted newest first |
| Recent.Upserted | src/lib/stores/recent.svelte.ts:34-41 | a known dir is replaced at its index by the merged entry; a new dir is appended |
| Recent.UpsertedDistinct | src/lib/stores/recent.svelte.ts:35-41 | upsert keeps dirs unique |
| Recent.UpsertedContents | src/lib/stores/recent.svelte.ts:34-41 | the new entry is present, entries of other dirs are kept, and nothing else appears |
| Recent.AddedOrUpdated | src/lib/stores/recent.svelte.ts:34-42 | no contract of its own: upsert then sort; `AddOrUpdateSpec` states its contents, order and uniqueness |
| Recent.AddOrUpdateSpec | src/lib/stores/recent.svelte.ts:34-43 | after add-or-update: dirs unique, sorted newest first, contents as above, one entry longer exactly for a new dir |
| Recent.WithoutDir | src/lib/stores/recent.svelte.ts:45-47 | no contract of its own: filter then sort; `RemoveSpec` states its contents, order and uniqueness |
| Recent.RemoveSpec | src/lib/stores/recent.svelte.ts:45-48 | remove drops every entry with that dir, keeps the others, stays sorted and unique |
| Recent.AddOrUpdateIdempotent | src/lib/stores/recent.svelte.ts:34-43 | adding the same project twice is the same as once |
| Recent.RemoveIdempotent | src/lib/stores/recent.svelte.ts:45-48 | removing twice is the same as once |
| Recent.RecentProjectsStore.constructor | src/lib/stores/recent.svelte.ts:11 | empty list |
| Recent.RecentProjectsStore.AddOrUpdate | src/lib/stores/recent.svelte.ts:34-43 | the list becomes the sorted upsert |
| Recent.RecentProjectsStore.Remove | src/lib/stores/recent.svelte.ts:45-48 | the list becomes the sorted list without that dir |
| Toasts.Request | src/lib/stores/toasts.svelte.ts:13 | kind defaults to `info` and duration to 3000 |
| Toasts.WithoutToast | src/lib/stores/toasts.svelte.ts:23-25 | exactly the toasts with other ids are kept; an unknown id changes nothing |
| Toasts.AddThenRemove | src/lib/stores/toasts.svelte.ts:13-25 | removing a toast just added with a fresh id restores the list |
| Toasts.UniqueIdsPreserved | src/lib/stores/toasts.svelte.ts:13-25 | add with a fresh id and remove keep toast ids unique |
| Toasts.ToastStore.constructor | src/lib/stores/toasts.svelte.ts:11 | no toasts |
| Toasts.ToastStore.Add | src/lib/stores/toasts.svelte.ts:13-21 | appends exactly one toast with the given id, message, kind and duration |
| Toasts.ToastStore.Remove | src/lib/stores/toasts.svelte.ts:23-25 | the list becomes `WithoutToast` |
| Workspace.Navigated | src/lib/controllers/workspaceController.ts:36-39 | a known tab id becomes the active tab; an unknown one fails with "Aba inexistente." and changes nothing |
| Workspace.TabItems | src/lib/controllers/workspaceController.ts:45-55 | one item per tab, captioned by its label, with value `{tabId}` |
| Workspace.PickedTabNavigates | src/lib/controllers/workspaceController.ts:36-55 | picking any item of the `ui:navigate` list navigates to that tab |
| Workspace.NavigateTwice | src/lib/controllers/workspaceController.ts:36-39 | navigating to the same tab again changes nothing; a successful second navigation overrides the first |
| Workspace.WorkspaceController.constructor | src/lib/controllers/workspaceController.ts:1-5 | holds the project store, app state and tab manager |
| Workspace.WorkspaceController.SaveProject | src/lib/controllers/workspaceController.ts:12-18 | false with no project; otherwise saves, returning true when the write succeeds |
| Workspace.WorkspaceController.CloseProject | src/lib/controllers/workspaceController.ts:20-34 | saves first only when there are unsaved changes and the user confirms; unless that save fails, ends with no project and the launcher view; a failed save leaves the project open with its document and still unsaved, a successful one marks it saved before closing |
| Workspace.WorkspaceController.NavigateTab | src/lib/controllers/workspaceController.ts:36-39 | the app state and error are `Navigated` |

## Left out

- File and dialog I/O are not modelled: Tauri file calls, dialogs, JSON
  save/load of the project file, `projectStore.load`/`read`/`deleteProject`.
  A write outcome and a confirmation answer are parameters instead.
- Plugin scripts are not executed. `new Function` runs code that cannot be
  seen, so each folder's reads and script run are an abstract outcome with
  the listeners its `init` subscribes. A listener is a value that gives its
  response to a payload, so callbacks cannot change the document.
- `executeScript` is not awaited in `loadPluginFromFolder`. The model runs each
  folder to completion before the next one.
- Svelte reactivity (`$state`, `$derived`, snapshots) is not modelled. Datatype
  values are copies, so a snapshot is the value itself.
- `localStorage` persistence and the recent-projects existence check are not
  modelled.
- The `setTimeout` auto-dismiss of toasts is not modelled.
- Screen geometry is not modelled: `toWorld`, timeline scrolling, and the
  `svgElement` reference.
- The map background upload and toggle are not modelled. `ProjectData`
  declares no `mapBackground` field to hold them.
- Map coordinates and zoom are `real`. Floating-point rounding is not modelled.
- Timestamps are opaque strings. The recent-projects `lastOpenedAt` is an
  integer, because the sort subtracts parsed dates.
- `removeLocation`, `removeEvent`, `removeConnection` and `updateEvent` are
  called but not defined on `ActiveProject`. The model declares them as
  abstract functions, with no claim about cascading deletes or emitted events.
- `create` writes `calendar: { monthDuration, yearDuration }`, which does not
  match the declared `calendar.months`. The model stores the declared shape,
  with no months, and keeps every other field of `create`. In the source,
  `getDaysInYear` then reduces over the missing `months` and throws, so
  `sortedEvents`, `currentDate`, `getDateValue` and `getCurrentDate` throw for a
  project made by `create`; the model computes with a year of 0 days instead.
- Spreads such as `{...old, ...updates}` carry only the declared fields of each
  record. A plugin passing extra unknown keys is not modelled.
- JavaScript falsiness is modelled for `null`, `false`, `0` and `""` on JSON
  values. NaN is not.
- The plugin bridge's `ui` (toast, alert, confirm), `context` (active tab,
  states) and `commands` proxies are not modelled. Nor is the loader's
  `openPluginsFolder`.
- The older bridge's toast, which takes no duration, is not modelled.
- Tab icons and components are left out. Tabs keep id, label and order.
- `charState.searchQuery`, `charState.sortBy` and `pickImageCommand` are left
  out. The first two are read only by views; the third is a file dialog.
- The timeline commands are registered with descriptions only, so they are
  unflagged. Their registration table is not modelled beyond that.
- `projectSettingsController.ts` and `launcherController.ts` are not part of
  this model.
- Workspace.WorkspaceController.CloseProject: a save that fails rejects before
  `close` and `goToLauncher` run. So "always ends with no project" holds only
  when the save succeeds or is skipped, and the contract says exactly that.
- ProjectStore.ActiveProject.RemoveLocation, RemoveEvent, RemoveConnection and
  UpdateEvent: these contracts only delegate to the abstract functions above,
  because the source gives them no body.
- PluginApi.LocationUpdatedPayload: `arr[-1] = …` for an unknown id leaves a
  `"-1"` property on the locations array, which the model does not hold. A
  later unknown-id call merges into that property and emits the merge; the
  model emits only the changes of each call.
- PluginApi.ConnectionUpdatedPayload: the same `"-1"` property on the
  connections array is not modelled; a later unknown-id call emits only its
  changes in the model.
- Bridge.PluginBridge.UpdateLocation: does not hold the `"-1"` property of the
  locations array; the list of locations itself is unchanged, as in the source.
- Bridge.PluginBridge.UpdateConnection: does not hold the `"-1"` property of
  the connections array; the list of connections itself is unchanged.
- Bridge.PluginBridge.RemoveLocation: in the source, with a project open, the
  call throws a TypeError because `removeLocation` is not defined, and the
  promise rejects with the document unchanged. The model applies the abstract
  function instead, describing the code as if the method existed.
- Bridge.PluginBridge.RemoveEvent: likewise throws and rejects in the source;
  the model applies the abstract `removeEvent`.
- Bridge.PluginBridge.RemoveConnection: likewise throws and rejects in the
  source; the model applies the abstract `removeConnection`.
- Bridge.PluginBridge.UpdateEvent: likewise throws and rejects in the source;
  the model applies the abstract `updateEvent`.
- Timeline.TimelineController.SaveEvent: with a selected event the call to
  `updateEvent` throws, so the list view and form reset at
  timelineController.svelte.ts:114-115 are skipped; the model applies the
  abstract update and then resets. The add branch is modelled as written.
- Timeline.TimelineController.DeleteEvent: after confirmation the call to
  `removeEvent` throws, so the view and form reset at
  timelineController.svelte.ts:124-125 are skipped; the model removes and resets.
- MapController.MapState.DeleteSelection: with a project open, `removeLocation`
  or `removeConnection` throws, so clearing the selection at
  mapController.svelte.ts:51 and 58 is skipped; the model removes and clears.
  With no project, `?.` skips the call and the selection is cleared, as modelled.
- MapController.ZoomOutUndoesZoomIn: holds over exact reals. In the doubles the
  source uses, `0.1 + 0.2 - 0.2` is not `0.1`, so there the two commands only
  nearly cancel.
- Bridge.PluginBridge.CreateCharacter, CreateEvent and CreateLocation, and
  LegacyBridge.PluginBridge.CreateCharacter and CreateEvent: the source's
  default arguments (`description = ''`, and `x = 0`, `y = 0` for
  `createLocation`) are not modelled; a caller omitting them passes the
  defaults explicitly.
