/**
 * What both plugin bridges share: the listener table and its ordered fan-out, the read
 * side of the data API, the entity lookup and per-plugin metadata, and the document
 * changes made by the factory calls.
 */
module PluginApi {
  import opened Wrappers
  import opened Model
  import opened Seqs
  import opened JsMaps
  import opened History
  import opened Timeline

  /** `Partial<Location>` as `updateLocation` receives it. */
  datatype LocationChanges = LocationChanges(
    id: Option<Id>, name: Option<string>, description: Option<string>,
    coordinates: Option<Coordinates>, metadata: Metadata)

  /** The changes `updateConnection` receives. */
  datatype ConnectionChanges = ConnectionChanges(
    id: Option<Id>, name: Option<string>, description: Option<string>,
    fromLocationId: Option<Id>, toLocationId: Option<Id>, metadata: Metadata)

  /** The data a bridge event carries. */
  datatype Payload =
    | CharacterPayload(character: Character)
    | LocationPayload(location: Location)
    | ConnectionPayload(connection: Connection)
    | EventPayload(event: Event)
    | LocationChangesPayload(locationChanges: LocationChanges)
    | ConnectionChangesPayload(connectionChanges: ConnectionChanges)

  /**
   * A plugin callback, seen from the bridge: for a payload it either returns (`None`) or
   * throws the given message. What the callback does elsewhere is not modelled.
   */
  datatype Listener = Listener(callback: Payload -> Option<string>)

  /** The `listeners` Map: event name to callbacks in subscription order. */
  type Table = JsMap<string, seq<Listener>>

  /** How a promise returned to a plugin settles. */
  datatype Reply<T> = Fulfilled(value: T) | Failed(reason: string)

  /** The callbacks subscribed to an event; an event nobody subscribed to has none. */
  function ListenersOf(t: Table, event: string): seq<Listener> {
    Get(t, event).GetOr([])
  }

  /** `events.on(event, callback)`. */
  function Subscribed(t: Table, event: string, l: Listener): (r: Table)
    requires Valid(t)
    ensures Valid(r)
    ensures ListenersOf(r, event) == ListenersOf(t, event) + [l]
    ensures forall e :: e != event ==> Get(r, e) == Get(t, e)
  {
    Set(t, event, ListenersOf(t, event) + [l])
  }

  /** How far an `emitInternal` got: how many callbacks ran, and the error that stopped it. */
  datatype Delivery = Delivery(called: nat, error: Option<string>)

  /** The `forEach` over the callbacks, where a throw ends the loop and propagates. */
  function Fanout(ls: seq<Listener>, p: Payload): (r: Delivery)
    ensures r.called <= |ls|
    ensures r.error.None? <==> forall i :: 0 <= i < |ls| ==> ls[i].callback(p).None?
    ensures r.error.None? ==> r.called == |ls|
    ensures r.error.Some? ==>
              && 0 < r.called
              && ls[r.called - 1].callback(p) == r.error
              && forall i :: 0 <= i < r.called - 1 ==> ls[i].callback(p).None?
  {
    if |ls| == 0 then Delivery(0, None)
    else match ls[0].callback(p)
      case Some(e) => Delivery(1, Some(e))
      case None =>
        var rest := Fanout(ls[1..], p);
        Delivery(rest.called + 1, rest.error)
  }

  /**
   * Callbacks run in subscription order: a callback subscribed last runs after all the
   * earlier ones, and only if none of them threw.
   */
  lemma {:induction false} FanoutAppend(ls: seq<Listener>, l: Listener, p: Payload)
    ensures Fanout(ls + [l], p) ==
              if Fanout(ls, p).error.Some? then Fanout(ls, p) else Delivery(|ls| + 1, l.callback(p))
  {
    if |ls| > 0 {
      assert (ls + [l])[1..] == ls[1..] + [l];
      FanoutAppend(ls[1..], l, p);
    }
  }

  /** After `reset` (`listeners.clear()`), no event reaches any callback. */
  lemma ResetSilences(event: string, p: Payload)
    ensures Fanout(ListenersOf(Empty(), event), p) == Delivery(0, None)
  {
  }

  /** Subscribing to one event does not change who hears another. */
  lemma SubscribeIsolated(t: Table, event: string, other: string, l: Listener, p: Payload)
    requires Valid(t) && other != event
    ensures Fanout(ListenersOf(Subscribed(t, event, l), other), p) == Fanout(ListenersOf(t, other), p)
  {
  }

  /** The reply of a factory call once the record is in: its id, unless a callback threw. */
  function FactoryReply(d: Delivery, id: Id): (r: Reply<Option<Id>>)
    ensures d.error.None? <==> r == Fulfilled(Some(id))
  {
    if d.error.None? then Fulfilled(Some(id)) else Failed(d.error.value)
  }

  // ---- Data getters: copies of the open document's lists, or nothing without a project.

  function GetCharacters(live: Option<Live>): (r: seq<Character>)
    ensures live.None? ==> r == []
    ensures live.Some? ==> r == live.value.data.characters
  {
    if live.None? then [] else live.value.data.characters
  }

  function GetLocations(live: Option<Live>): (r: seq<Location>)
    ensures live.None? ==> r == []
    ensures live.Some? ==> r == live.value.data.locations
  {
    if live.None? then [] else live.value.data.locations
  }

  function GetConnections(live: Option<Live>): (r: seq<Connection>)
    ensures live.None? ==> r == []
    ensures live.Some? ==> r == live.value.data.connections
  {
    if live.None? then [] else live.value.data.connections
  }

  function GetEvents(live: Option<Live>): (r: seq<Event>)
    ensures live.None? ==> r == []
    ensures live.Some? ==> r == live.value.data.events
  {
    if live.None? then [] else live.value.data.events
  }

  function GetCalendar(live: Option<Live>): (r: Option<Calendar>)
    ensures r.None? <==> live.None?
    ensures live.Some? ==> r == Some(live.value.data.calendar)
  {
    if live.None? then None else Some(live.value.data.calendar)
  }

  /** `getCurrentDate`: the timeline's current date, or nothing without a project. */
  function GetCurrentDate(live: Option<Live>): (r: Option<Time>)
    ensures r.None? <==> live.None?
    ensures live.Some? ==> r == Some(CurrentDate(live))
  {
    if live.None? then None else Some(CurrentDate(live))
  }

  // ---- Entity lookup.

  datatype EntityKind = CharacterKind | LocationKind | EventKind | ConnectionKind

  /** Where `findEntity` found the record: which list, and at which index. */
  datatype Found = Found(kind: EntityKind, index: nat)

  /** The position of a list in the search order. */
  function Rank(k: EntityKind): nat {
    match k
    case CharacterKind => 0
    case LocationKind => 1
    case EventKind => 2
    case ConnectionKind => 3
  }

  /** The ids of one list of the document, in list order. */
  function Ids(d: ProjectData, k: EntityKind): (r: seq<Id>)
    ensures k == CharacterKind ==> |r| == |d.characters| && forall i :: 0 <= i < |r| ==> r[i] == d.characters[i].id
    ensures k == LocationKind ==> |r| == |d.locations| && forall i :: 0 <= i < |r| ==> r[i] == d.locations[i].id
    ensures k == EventKind ==> |r| == |d.events| && forall i :: 0 <= i < |r| ==> r[i] == d.events[i].id
    ensures k == ConnectionKind ==> |r| == |d.connections| && forall i :: 0 <= i < |r| ==> r[i] == d.connections[i].id
  {
    match k
    case CharacterKind => MapSeq(d.characters, (c: Character) => c.id)
    case LocationKind => MapSeq(d.locations, (l: Location) => l.id)
    case EventKind => MapSeq(d.events, (e: Event) => e.id)
    case ConnectionKind => MapSeq(d.connections, (c: Connection) => c.id)
  }

  function FoundIn(d: ProjectData, k: EntityKind, id: Id): Option<Found> {
    var i := IndexOf(Ids(d, k), id);
    if i < 0 then None else Some(Found(k, i))
  }

  /**
   * `findEntity`: the first record with this id, searching characters, then locations,
   * then events, then connections.
   */
  function FindEntity(live: Option<Live>, id: Id): (r: Option<Found>)
    ensures r.None? <==> live.None? || forall k :: id !in Ids(live.value.data, k)
    ensures r.Some? ==>
              && live.Some?
              && r.value.index < |Ids(live.value.data, r.value.kind)|
              && Ids(live.value.data, r.value.kind)[r.value.index] == id
              && id !in Ids(live.value.data, r.value.kind)[..r.value.index]
              && forall k :: Rank(k) < Rank(r.value.kind) ==> id !in Ids(live.value.data, k)
  {
    if live.None? then None
    else
      var d := live.value.data;
      if id in Ids(d, CharacterKind) then FoundIn(d, CharacterKind, id)
      else if id in Ids(d, LocationKind) then FoundIn(d, LocationKind, id)
      else if id in Ids(d, EventKind) then FoundIn(d, EventKind, id)
      else FoundIn(d, ConnectionKind, id)
  }

  /** The metadata of the record found. */
  function MetadataAt(d: ProjectData, f: Found): Metadata
    requires f.index < |Ids(d, f.kind)|
  {
    match f.kind
    case CharacterKind => d.characters[f.index].metadata
    case LocationKind => d.locations[f.index].metadata
    case EventKind => d.events[f.index].metadata
    case ConnectionKind => d.connections[f.index].metadata
  }

  /** The document with the metadata of the record found replaced. */
  function WithMetadata(d: ProjectData, f: Found, md: Metadata): (r: ProjectData)
    requires f.index < |Ids(d, f.kind)|
    ensures forall k :: Ids(r, k) == Ids(d, k)
    ensures MetadataAt(r, f) == md
    ensures r.calendar == d.calendar
    ensures f.kind == CharacterKind ==>
              && r.(characters := d.characters) == d && |r.characters| == |d.characters|
              && forall i :: 0 <= i < |d.characters| ==>
                   r.characters[i] == if i == f.index then d.characters[i].(metadata := md) else d.characters[i]
    ensures f.kind == LocationKind ==>
              && r.(locations := d.locations) == d && |r.locations| == |d.locations|
              && forall i :: 0 <= i < |d.locations| ==>
                   r.locations[i] == if i == f.index then d.locations[i].(metadata := md) else d.locations[i]
    ensures f.kind == EventKind ==>
              && r.(events := d.events) == d && |r.events| == |d.events|
              && forall i :: 0 <= i < |d.events| ==>
                   r.events[i] == if i == f.index then d.events[i].(metadata := md) else d.events[i]
    ensures f.kind == ConnectionKind ==>
              && r.(connections := d.connections) == d && |r.connections| == |d.connections|
              && forall i :: 0 <= i < |d.connections| ==>
                   r.connections[i] == if i == f.index then d.connections[i].(metadata := md) else d.connections[i]
  {
    var r := match f.kind
      case CharacterKind => d.(characters := d.characters[f.index := d.characters[f.index].(metadata := md)])
      case LocationKind => d.(locations := d.locations[f.index := d.locations[f.index].(metadata := md)])
      case EventKind => d.(events := d.events[f.index := d.events[f.index].(metadata := md)])
      case ConnectionKind => d.(connections := d.connections[f.index := d.connections[f.index].(metadata := md)]);
    assert forall k :: Ids(r, k) == Ids(d, k);
    r
  }

  /** `metadata?.[pluginId] || {}`: the stored value, or `{}` when it is missing or falsy. */
  function StoredFor(md: Metadata, pluginId: string): Json {
    if md.Some? && pluginId in md.value && !Falsy(md.value[pluginId]) then md.value[pluginId] else JObject(map[])
  }

  /** `metadata.get(entityId)` for plugin `pluginId`; `None` is `null`. */
  function MetadataGet(live: Option<Live>, pluginId: string, entityId: Id): (r: Option<Json>)
    ensures r.None? <==> FindEntity(live, entityId).None?
    ensures r.Some? ==> r.value == StoredFor(MetadataAt(live.value.data, FindEntity(live, entityId).value), pluginId)
  {
    match FindEntity(live, entityId)
    case None => None
    case Some(f) => Some(StoredFor(MetadataAt(live.value.data, f), pluginId))
  }

  function NotFoundMessage(entityId: Id): string {
    "Entidade " + entityId + " não encontrada."
  }

  /**
   * `metadata.set(entityId, data)` for plugin `pluginId`: the new session and the error
   * thrown, if any.
   */
  function MetadataSet(s: Session, pluginId: string, entityId: Id, data: Json): (r: (Session, Option<string>))
    ensures s.live.None? ==> r == (s, None)
    ensures s.live.Some? && FindEntity(s.live, entityId).None? ==> r == (s, Some(NotFoundMessage(entityId)))
    ensures FindEntity(s.live, entityId).Some? ==>
              && r.1.None?
              && r.0.past == Captured(s).past && r.0.future == []
              && r.0.live.Some? && r.0.live.value.changesUnsaved
              && var d, f := s.live.value.data, FindEntity(s.live, entityId).value;
                 var md := Some(MetadataAt(d, f).GetOr(map[])[pluginId := data]);
                 && r.0.live.value.data == WithMetadata(d, f, md)
                 && MetadataAt(r.0.live.value.data, f) == md
  {
    if s.live.None? then (s, None)
    else match FindEntity(s.live, entityId)
      case None => (s, Some(NotFoundMessage(entityId)))
      case Some(f) =>
        var d := s.live.value.data;
        var md := Some(MetadataAt(d, f).GetOr(map[])[pluginId := data]);
        var c := Captured(s);
        (Session(c.past, c.future, Some(Live(WithMetadata(d, f, md), true))), None)
  }

  /** The lookup depends on the id lists alone. */
  lemma FindEntityByIds(a: Live, b: Live, id: Id)
    requires Ids(a.data, CharacterKind) == Ids(b.data, CharacterKind)
    requires Ids(a.data, LocationKind) == Ids(b.data, LocationKind)
    requires Ids(a.data, EventKind) == Ids(b.data, EventKind)
    requires Ids(a.data, ConnectionKind) == Ids(b.data, ConnectionKind)
    ensures FindEntity(Some(a), id) == FindEntity(Some(b), id)
  {
  }

  /** Writing metadata touches no other record: every id lookup still finds the same place. */
  lemma MetadataSetKeepsLookup(s: Session, pluginId: string, entityId: Id, data: Json, id: Id)
    requires s.live.Some?
    ensures MetadataSet(s, pluginId, entityId, data).0.live.Some?
    ensures FindEntity(MetadataSet(s, pluginId, entityId, data).0.live, id) == FindEntity(s.live, id)
  {
    var after := MetadataSet(s, pluginId, entityId, data).0.live;
    if FindEntity(s.live, entityId).Some? {
      var f := FindEntity(s.live, entityId).value;
      var d := s.live.value.data;
      var nd := WithMetadata(d, f, Some(MetadataAt(d, f).GetOr(map[])[pluginId := data]));
      assert after == Some(Live(nd, true));
      FindEntityByIds(Live(nd, true), s.live.value, id);
    }
  }

  /**
   * What a plugin writes it reads back, unless the value is falsy (then `{}`); the
   * entries of every other plugin read as before.
   */
  lemma MetadataRoundTrip(s: Session, pluginId: string, entityId: Id, data: Json, other: string)
    requires FindEntity(s.live, entityId).Some?
    requires other != pluginId
    ensures MetadataGet(MetadataSet(s, pluginId, entityId, data).0.live, pluginId, entityId) ==
              Some(if Falsy(data) then JObject(map[]) else data)
    ensures MetadataGet(MetadataSet(s, pluginId, entityId, data).0.live, other, entityId) ==
              MetadataGet(s.live, other, entityId)
  {
    var f := FindEntity(s.live, entityId).value;
    var d := s.live.value.data;
    var md := Some(MetadataAt(d, f).GetOr(map[])[pluginId := data]);
    var nd := WithMetadata(d, f, md);
    var after := MetadataSet(s, pluginId, entityId, data).0.live;
    assert after == Some(Live(nd, true));
    MetadataSetKeepsLookup(s, pluginId, entityId, data, entityId);
    assert FindEntity(after, entityId) == Some(f);
    assert MetadataAt(nd, f) == md;
    StoredAfterWrite(MetadataAt(d, f), pluginId, data, other);
  }

  /** One plugin's entry written into a record's metadata, read back by it and by another plugin. */
  lemma StoredAfterWrite(md: Metadata, pluginId: string, data: Json, other: string)
    requires other != pluginId
    ensures StoredFor(Some(md.GetOr(map[])[pluginId := data]), pluginId) == if Falsy(data) then JObject(map[]) else data
    ensures StoredFor(Some(md.GetOr(map[])[pluginId := data]), other) == StoredFor(md, other)
  {
  }

  /** A metadata write is undone by one undo. */
  lemma MetadataSetUndoable(s: Session, pluginId: string, entityId: Id, data: Json)
    requires FindEntity(s.live, entityId).Some?
    ensures Undone(MetadataSet(s, pluginId, entityId, data).0).live == Some(Live(s.live.value.data, true))
  {
    UndoRevertsEdit(s, MetadataSet(s, pluginId, entityId, data).0.live.value);
  }

  // ---- Updates through the data API.

  /** `{ ...changes, ...existing }`: every declared field of the record wins. */
  function SpreadLocation(changes: LocationChanges, existing: Location): Location {
    existing.(metadata := if existing.metadata.Some? then existing.metadata else changes.metadata)
  }

  function SpreadConnection(changes: ConnectionChanges, existing: Connection): Connection {
    existing.(metadata := if existing.metadata.Some? then existing.metadata else changes.metadata)
  }

  function LocationWithId(id: Id): Location -> bool {
    (l: Location) => l.id == id
  }

  function ConnectionWithId(id: Id): Connection -> bool {
    (c: Connection) => c.id == id
  }

  /**
   * The location list after `updateLocation`. An unknown id writes the array's "-1"
   * property, which is not an element, so the elements stay as they were.
   */
  function SpreadLocations(ls: seq<Location>, id: Id, changes: LocationChanges): (r: seq<Location>)
    ensures |r| == |ls|
    ensures forall i :: 0 <= i < |ls| ==>
              && r[i].id == ls[i].id && r[i].name == ls[i].name
              && r[i].description == ls[i].description && r[i].coordinates == ls[i].coordinates
              && (ls[i].metadata.Some? ==> r[i].metadata == ls[i].metadata)
    ensures (forall i :: 0 <= i < |ls| ==> ls[i].metadata.Some?) || changes.metadata.None? ==> r == ls
  {
    var k := FindIndex(ls, LocationWithId(id));
    if k < 0 then ls else ls[k := SpreadLocation(changes, ls[k])]
  }

  function SpreadConnections(cs: seq<Connection>, id: Id, changes: ConnectionChanges): (r: seq<Connection>)
    ensures |r| == |cs|
    ensures forall i :: 0 <= i < |cs| ==>
              && r[i].id == cs[i].id && r[i].name == cs[i].name && r[i].description == cs[i].description
              && r[i].fromLocationId == cs[i].fromLocationId && r[i].toLocationId == cs[i].toLocationId
              && (cs[i].metadata.Some? ==> r[i].metadata == cs[i].metadata)
    ensures (forall i :: 0 <= i < |cs| ==> cs[i].metadata.Some?) || changes.metadata.None? ==> r == cs
  {
    var k := FindIndex(cs, ConnectionWithId(id));
    if k < 0 then cs else cs[k := SpreadConnection(changes, cs[k])]
  }

  /** What `updateLocation` emits as `location:updated`: the stored record, or the changes. */
  function LocationUpdatedPayload(ls: seq<Location>, id: Id, changes: LocationChanges): (r: Payload)
    ensures FindIndex(ls, LocationWithId(id)) < 0 ==> r == LocationChangesPayload(changes)
    ensures 0 <= FindIndex(ls, LocationWithId(id)) ==>
              r == LocationPayload(SpreadLocations(ls, id, changes)[FindIndex(ls, LocationWithId(id))])
  {
    var k := FindIndex(ls, LocationWithId(id));
    if k < 0 then LocationChangesPayload(changes) else LocationPayload(SpreadLocations(ls, id, changes)[k])
  }

  function ConnectionUpdatedPayload(cs: seq<Connection>, id: Id, changes: ConnectionChanges): (r: Payload)
    ensures FindIndex(cs, ConnectionWithId(id)) < 0 ==> r == ConnectionChangesPayload(changes)
    ensures 0 <= FindIndex(cs, ConnectionWithId(id)) ==>
              r == ConnectionPayload(SpreadConnections(cs, id, changes)[FindIndex(cs, ConnectionWithId(id))])
  {
    var k := FindIndex(cs, ConnectionWithId(id));
    if k < 0 then ConnectionChangesPayload(changes) else ConnectionPayload(SpreadConnections(cs, id, changes)[k])
  }

  // ---- Factory calls.

  /** The character `createCharacter` makes; `id` and `now` stand for the UUID and the clock. */
  function NewCharacter(name: string, description: string, id: Id, now: string): Character {
    Character(id, name, None, description, now, None)
  }

  /** The event `createEvent` makes: no location and no participants. */
  function NewPluginEvent(name: string, date: Time, description: string, id: Id): Event {
    Event(id, name, description, "", date, [], None)
  }

  function NewPluginLocation(name: string, description: string, x: real, y: real, id: Id): Location {
    Location(id, name, description, Coordinates(x, y), None)
  }

  /** A capture followed by `edit` applied to the open document, flagged unsaved. */
  function CapturedEdit(s: Session, d: ProjectData): (r: Session)
    requires s.live.Some?
    ensures r.past == Captured(s).past && r.future == []
    ensures r.live == Some(Live(d, true))
    ensures Undone(r).live == Some(Live(s.live.value.data, true))
  {
    UndoRevertsEdit(s, Live(d, true));
    Session(Captured(s).past, Captured(s).future, Some(Live(d, true)))
  }

  /** The session after `createCharacter` with a project open. */
  function CharacterCreated(s: Session, name: string, description: string, id: Id, now: string): (r: Session)
    requires s.live.Some?
    ensures r.live.Some?
    ensures r.live.value.data.characters == s.live.value.data.characters + [NewCharacter(name, description, id, now)]
    ensures r.live.value.data.(characters := s.live.value.data.characters) == s.live.value.data
    ensures Undone(r).live == Some(Live(s.live.value.data, true))
    ensures r.past == Captured(s).past && r.future == [] && r.live.value.changesUnsaved
  {
    var d := s.live.value.data;
    CapturedEdit(s, d.(characters := d.characters + [NewCharacter(name, description, id, now)]))
  }

  /** The session after `createEvent`: the event is appended, not sorted in. */
  function EventCreated(s: Session, name: string, date: Time, description: string, id: Id): (r: Session)
    requires s.live.Some?
    ensures r.live.Some?
    ensures r.live.value.data.events == s.live.value.data.events + [NewPluginEvent(name, date, description, id)]
    ensures r.live.value.data.(events := s.live.value.data.events) == s.live.value.data
    ensures Undone(r).live == Some(Live(s.live.value.data, true))
    ensures r.past == Captured(s).past && r.future == [] && r.live.value.changesUnsaved
  {
    var d := s.live.value.data;
    CapturedEdit(s, d.(events := d.events + [NewPluginEvent(name, date, description, id)]))
  }

  function LocationCreated(s: Session, name: string, description: string, x: real, y: real, id: Id): (r: Session)
    requires s.live.Some?
    ensures r.live.Some?
    ensures r.live.value.data.locations == s.live.value.data.locations + [NewPluginLocation(name, description, x, y, id)]
    ensures r.live.value.data.(locations := s.live.value.data.locations) == s.live.value.data
    ensures Undone(r).live == Some(Live(s.live.value.data, true))
    ensures r.past == Captured(s).past && r.future == [] && r.live.value.changesUnsaved
  {
    var d := s.live.value.data;
    CapturedEdit(s, d.(locations := d.locations + [NewPluginLocation(name, description, x, y, id)]))
  }

  /**
   * Unlike `addEvent`, `createEvent` does not sort: an event dated before the last one
   * ends up out of (year, month, day) order.
   */
  lemma CreatedEventMayBreakOrder(s: Session, name: string, date: Time, description: string, id: Id)
    requires s.live.Some? && |s.live.value.data.events| > 0
    requires date.year < s.live.value.data.events[|s.live.value.data.events| - 1].date.year
    ensures var es := EventCreated(s, name, date, description, id).live.value.data.events;
            !ProjectStore.DayLe(es[|es| - 2], es[|es| - 1])
  {
  }
}
