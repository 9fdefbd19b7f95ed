/**
 * The document store: `ActiveProject`, the open project whose mutators edit the
 * document in place and raise the unsaved-changes flag, and `projectStore`, the holder
 * of the currently open project.
 */
module ProjectStore {
  import opened Wrappers
  import opened Model
  import opened Seqs
  import opened Sorting

  /** `Partial<Character>`: each field an update may carry. */
  datatype CharacterPatch = CharacterPatch(
    id: Option<Id>, name: Option<string>, image: Option<Option<string>>,
    description: Option<string>, createdAt: Option<string>)

  /** `Partial<Event>` as the timeline form passes it. */
  datatype EventPatch = EventPatch(
    name: Option<string>, description: Option<string>, date: Option<Time>,
    locationId: Option<Id>, characters: Option<seq<Id>>)

  /**
   * `removeLocation`, `removeEvent`, `removeConnection` and `updateEvent` are called on
   * `ActiveProject` but not defined by it. Their effect is an unknown function of the
   * live document, fixed when the store is set up; nothing is claimed about it.
   */
  datatype AbsentMembers = AbsentMembers(
    removeLocation: (Live, Id) -> Live,
    removeEvent: (Live, Id) -> Live,
    removeConnection: (Live, Id) -> Live,
    updateEvent: (Live, Id, EventPatch) -> Live)

  /** `{ ...c, ...p }`: every field the patch carries replaces the record's. */
  function Merge(c: Character, p: CharacterPatch): Character {
    Character(
      p.id.GetOr(c.id), p.name.GetOr(c.name), p.image.GetOr(c.image),
      p.description.GetOr(c.description), p.createdAt.GetOr(c.createdAt), c.metadata)
  }

  /**
   * `{ ...c, ...p }` field by field: each field the patch carries replaces the record's, the
   * others and the metadata are kept; so an empty patch changes nothing and merging the same
   * patch twice is merging it once.
   */
  lemma MergeIdempotent(c: Character, p: CharacterPatch)
    ensures Merge(c, CharacterPatch(None, None, None, None, None)) == c
    ensures Merge(Merge(c, p), p) == Merge(c, p)
    ensures Merge(c, p).metadata == c.metadata
    ensures Merge(c, p).id == (if p.id.Some? then p.id.value else c.id)
    ensures Merge(c, p).name == (if p.name.Some? then p.name.value else c.name)
    ensures Merge(c, p).image == (if p.image.Some? then p.image.value else c.image)
    ensures Merge(c, p).description == (if p.description.Some? then p.description.value else c.description)
    ensures Merge(c, p).createdAt == (if p.createdAt.Some? then p.createdAt.value else c.createdAt)
  {
  }

  function CharacterWithId(id: Id): Character -> bool {
    (c: Character) => c.id == id
  }

  function CharacterWithOtherId(id: Id): Character -> bool {
    (c: Character) => c.id != id
  }

  /** The character list after `updateCharacter(id, p)`: only the first match is merged. */
  function UpdatedCharacters(cs: seq<Character>, id: Id, p: CharacterPatch): (r: seq<Character>)
    ensures |r| == |cs|
    ensures (forall i :: 0 <= i < |cs| ==> cs[i].id != id) ==> r == cs
    ensures forall k :: 0 <= k < |cs| && cs[k].id == id && (forall i :: 0 <= i < k ==> cs[i].id != id) ==>
              r == cs[k := Merge(cs[k], p)]
  {
    var k := FindIndex(cs, CharacterWithId(id));
    if k == -1 then cs else cs[k := Merge(cs[k], p)]
  }

  /** `connectLocations` looks for a connection between a and b in either direction. */
  function Joins(a: Id, b: Id): Connection -> bool {
    (v: Connection) => (v.fromLocationId == a && v.toLocationId == b) || (v.fromLocationId == b && v.toLocationId == a)
  }

  /** The connections between a and b, whichever way round they were drawn. */
  function LinksBetween(cs: seq<Connection>, a: Id, b: Id): seq<Connection> {
    Filter(cs, Joins(a, b))
  }

  /** The connection list after `connectLocations`: unchanged if a and b are already joined. */
  function Connected(cs: seq<Connection>, c: Connection): (r: seq<Connection>)
    ensures |LinksBetween(cs, c.fromLocationId, c.toLocationId)| > 0 ==> r == cs
    ensures |LinksBetween(cs, c.fromLocationId, c.toLocationId)| == 0 ==> r == cs + [c]
  {
    var k := FindIndex(cs, Joins(c.fromLocationId, c.toLocationId));
    var links := LinksBetween(cs, c.fromLocationId, c.toLocationId);
    assert k >= 0 ==> cs[k] in links;
    assert |links| > 0 ==> links[0] in cs && Joins(c.fromLocationId, c.toLocationId)(links[0]);
    if k == -1 then cs + [c] else cs
  }

  /** Connecting a to b and then b to a leaves a single connection between them. */
  lemma ConnectBothWays(cs: seq<Connection>, first: Connection, second: Connection)
    requires second.fromLocationId == first.toLocationId && second.toLocationId == first.fromLocationId
    ensures Connected(Connected(cs, first), second) == Connected(cs, first)
    ensures |LinksBetween(cs, first.fromLocationId, first.toLocationId)| == 0 ==>
              |LinksBetween(Connected(Connected(cs, first), second), first.fromLocationId, first.toLocationId)| == 1
  {
    var a, b := first.fromLocationId, first.toLocationId;
    var once := Connected(cs, first);
    if |LinksBetween(cs, a, b)| == 0 {
      FilterAppend(cs, [first], Joins(a, b));
      assert once[|cs|] == first && Joins(b, a)(first);
      assert first in LinksBetween(once, b, a);
    } else {
      var l := LinksBetween(cs, a, b)[0];
      assert l in cs && Joins(b, a)(l);
      assert l in LinksBetween(cs, b, a);
    }
  }

  /** The comparator of `sortEvents`: year, then month, then day, compared as `<= 0`. */
  function DayLe(a: Event, b: Event): bool {
    if a.date.year != b.date.year then a.date.year - b.date.year <= 0
    else if a.date.month != b.date.month then a.date.month - b.date.month <= 0
    else a.date.day - b.date.day <= 0
  }

  lemma DayLeIsTotalPreorder()
    ensures Total(DayLe) && Transitive(DayLe)
  {
  }

  /** After `addEvent` the events are one more, the same records, in (year, month, day) order. */
  lemma AddedEventsSorted(es: seq<Event>, e: Event)
    ensures |SortBy(es + [e], DayLe)| == |es| + 1
    ensures multiset(SortBy(es + [e], DayLe)) == multiset(es) + multiset{e}
    ensures SortedBy(SortBy(es + [e], DayLe), DayLe)
  {
    DayLeIsTotalPreorder();
    SortBySorted(es + [e], DayLe);
  }

  /** The project `projectStore.create` writes before its first save. */
  function NewProject(id: Id, name: string, projectdir: string, now: string): ProjectData {
    ProjectData(id, name, projectdir, now, now, false, Calendar([]), [], [], [], [])
  }

  class ActiveProject {
    var data: ProjectData
    var changesUnsaved: bool
    const absent: AbsentMembers

    constructor (initialData: ProjectData, absent: AbsentMembers)
      ensures data == initialData && !changesUnsaved && this.absent == absent
    {
      data := initialData;
      changesUnsaved := false;
      this.absent := absent;
    }

    /** The open document together with its flag. */
    function Current(): Live
      reads this
    {
      Live(data, changesUnsaved)
    }

    /** `addCharacter`: `id` and `createdAt` stand for `randomUUID()` and the clock. */
    method AddCharacter(name: string, description: string, image: Option<string>, id: Id, createdAt: string)
      modifies this
      ensures data == old(data).(characters := old(data.characters) + [Character(id, name, image, description, createdAt, None)])
      ensures changesUnsaved
    {
      data := data.(characters := data.characters + [Character(id, name, image, description, createdAt, None)]);
      changesUnsaved := true;
    }

    method UpdateCharacter(id: Id, updates: CharacterPatch)
      modifies this
      ensures data == old(data).(characters := UpdatedCharacters(old(data.characters), id, updates))
      ensures changesUnsaved == (old(changesUnsaved) || exists i :: 0 <= i < |old(data.characters)| && old(data.characters)[i].id == id)
    {
      var index := FindIndex(data.characters, CharacterWithId(id));
      if index != -1 {
        data := data.(characters := data.characters[index := Merge(data.characters[index], updates)]);
        changesUnsaved := true;
      }
    }

    /** `removeCharacter` filters the list; the events keep their participant ids. */
    method RemoveCharacter(id: Id)
      modifies this
      ensures data == old(data).(characters := Filter(old(data.characters), CharacterWithOtherId(id)))
      ensures changesUnsaved
    {
      data := data.(characters := Filter(data.characters, CharacterWithOtherId(id)));
      changesUnsaved := true;
    }

    method AddLocation(name: string, description: string, x: real, y: real, id: Id)
      modifies this
      ensures data == old(data).(locations := old(data.locations) + [Location(id, name, description, Coordinates(x, y), None)])
      ensures changesUnsaved
    {
      data := data.(locations := data.locations + [Location(id, name, description, Coordinates(x, y), None)]);
      changesUnsaved := true;
    }

    method ConnectLocations(name: string, description: string, fromId: Id, toId: Id, id: Id)
      modifies this
      ensures data == old(data).(connections := Connected(old(data.connections), Connection(id, name, description, fromId, toId, None)))
      ensures changesUnsaved == (old(changesUnsaved) || |LinksBetween(old(data.connections), fromId, toId)| == 0)
    {
      var idx := FindIndex(data.connections, Joins(fromId, toId));
      if idx == -1 {
        data := data.(connections := data.connections + [Connection(id, name, description, fromId, toId, None)]);
        changesUnsaved := true;
      }
    }

    method AddEvent(name: string, description: string, locationId: Id, date: Time, characterIds: seq<Id>, id: Id)
      modifies this
      ensures data == old(data).(events := SortBy(old(data.events) + [Event(id, name, description, locationId, date, characterIds, None)], DayLe))
      ensures changesUnsaved
    {
      data := data.(events := data.events + [Event(id, name, description, locationId, date, characterIds, None)]);
      SortEvents();
      changesUnsaved := true;
    }

    /** The in-place `events.sort` by year, month and day. */
    method SortEvents()
      modifies this
      ensures data == old(data).(events := SortBy(old(data.events), DayLe))
      ensures changesUnsaved == old(changesUnsaved)
    {
      data := data.(events := SortBy(data.events, DayLe));
    }

    method RemoveLocation(id: Id)
      modifies this
      ensures Current() == absent.removeLocation(old(Current()), id)
    {
      var next := absent.removeLocation(Current(), id);
      data, changesUnsaved := next.data, next.changesUnsaved;
    }

    method RemoveEvent(id: Id)
      modifies this
      ensures Current() == absent.removeEvent(old(Current()), id)
    {
      var next := absent.removeEvent(Current(), id);
      data, changesUnsaved := next.data, next.changesUnsaved;
    }

    method RemoveConnection(id: Id)
      modifies this
      ensures Current() == absent.removeConnection(old(Current()), id)
    {
      var next := absent.removeConnection(Current(), id);
      data, changesUnsaved := next.data, next.changesUnsaved;
    }

    method UpdateEvent(id: Id, changes: EventPatch)
      modifies this
      ensures Current() == absent.updateEvent(old(Current()), id, changes)
    {
      var next := absent.updateEvent(Current(), id, changes);
      data, changesUnsaved := next.data, next.changesUnsaved;
    }
  }

  class ProjectStore {
    var current: ActiveProject?
    const absent: AbsentMembers

    constructor (absent: AbsentMembers)
      ensures current == null && this.absent == absent
    {
      current := null;
      this.absent := absent;
    }

    /**
     * `create`: opens a fresh project and saves it; `writeSucceeds` is the outcome of
     * the file write, whose failure makes `create` throw after the project is open.
     */
    method Create(name: string, projectdir: string, id: Id, now: string, writeSucceeds: bool) returns (threw: bool)
      modifies this
      ensures current != null && fresh(current) && current.absent == absent
      ensures current.data == NewProject(id, name, projectdir, now) && !current.changesUnsaved
      ensures threw == !writeSucceeds
    {
      current := new ActiveProject(NewProject(id, name, projectdir, now), absent);
      threw := Save(writeSucceeds);
    }

    /** `save`: writes the document (abstract) and clears the flag once the write succeeded. */
    method Save(writeSucceeds: bool) returns (threw: bool)
      modifies current
      ensures current == null ==> !threw
      ensures current != null ==> current.data == old(current.data)
      ensures current != null ==> threw == !writeSucceeds
      ensures current != null ==> current.changesUnsaved == (old(current.changesUnsaved) && !writeSucceeds)
    {
      threw := false;
      if current != null {
        if writeSucceeds {
          current.changesUnsaved := false;
        } else {
          threw := true;
        }
      }
    }

    method Close()
      modifies this
      ensures current == null
    {
      current := null;
    }
  }
}
