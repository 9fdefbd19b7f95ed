/**
 * The plugin bridge (API version 1.1.0): the listener table plugins subscribe to, the
 * data API that reads and edits the open project, per-plugin metadata and the factory
 * calls. The bridge reaches the open project through the history store it captures with.
 */
module Bridge {
  import opened Wrappers
  import opened Model
  import opened Seqs
  import opened JsMaps
  import opened ProjectStore
  import opened History
  import opened PluginApi

  const API_VERSION := "1.1.0"

  class PluginBridge {
    const history: HistoryStore
    var listeners: Table

    constructor (history: HistoryStore)
      ensures this.history == history && listeners == Empty()
    {
      this.history := history;
      listeners := Empty();
    }

    ghost predicate Valid()
      reads this
    {
      JsMaps.Valid(listeners)
    }

    function Document(): Option<Live>
      reads history.projects, history.projects.current
    {
      if history.projects.current == null then None else Some(history.projects.current.Current())
    }

    /** `events.on`: create the event's list if needed, then push the callback. */
    method On(event: string, callback: Listener)
      requires Valid()
      modifies this
      ensures Valid()
      ensures listeners == Subscribed(old(listeners), event, callback)
    {
      if Get(listeners, event).None? {
        listeners := Set(listeners, event, []);
      }
      var callbacks := Get(listeners, event).value;
      listeners := Set(listeners, event, callbacks + [callback]);
    }

    /** `emitInternal`: run the event's callbacks in order until one throws. */
    method EmitInternal(event: string, payload: Payload) returns (delivery: Delivery)
      ensures delivery == Fanout(ListenersOf(listeners, event), payload)
    {
      var callbacks := ListenersOf(listeners, event);
      var i := 0;
      while i < |callbacks|
        invariant 0 <= i <= |callbacks|
        invariant forall j :: 0 <= j < i ==> callbacks[j].callback(payload).None?
      {
        var thrown := callbacks[i].callback(payload);
        if thrown.Some? {
          return Delivery(i + 1, thrown);
        }
        i := i + 1;
      }
      delivery := Delivery(|callbacks|, None);
    }

    /** `reset`: `listeners.clear()`. */
    method Reset()
      modifies this
      ensures Valid() && listeners == Empty()
    {
      listeners := Empty();
    }

    /** `metadata.set` of the context made for `pluginId`; `error` is what it throws. */
    method SetMetadata(pluginId: string, entityId: Id, data: Json) returns (error: Option<string>)
      modifies history, history.projects.current
      ensures (history.State(), error) == MetadataSet(old(history.State()), pluginId, entityId, data)
    {
      if history.projects.current == null {
        return None;
      }
      var result := FindEntity(Document(), entityId);
      if result.None? {
        return Some(NotFoundMessage(entityId));
      }
      history.Capture();
      var current := history.projects.current;
      var stored := MetadataAt(current.data, result.value).GetOr(map[]);
      current.data := WithMetadata(current.data, result.value, Some(stored[pluginId := data]));
      current.changesUnsaved := true;
      error := None;
    }

    method UpdateCharacter(id: Id, changes: CharacterPatch)
      modifies history.projects.current
      ensures history.projects.current != null ==>
                && history.projects.current.data == old(history.projects.current.data).(characters := UpdatedCharacters(old(history.projects.current.data.characters), id, changes))
                && history.projects.current.changesUnsaved == (old(history.projects.current.changesUnsaved) || id in Ids(old(history.projects.current.data), CharacterKind))
    {
      if history.projects.current != null {
        history.projects.current.UpdateCharacter(id, changes);
      }
    }

    /**
     * `updateLocation`: the existing record is spread last, so only a field it lacks can
     * change; then `location:updated` is emitted. `error` is what a callback threw.
     */
    method UpdateLocation(id: Id, changes: LocationChanges) returns (error: Option<string>)
      modifies history.projects.current
      ensures history.projects.current != null ==>
                && history.projects.current.data == old(history.projects.current.data).(locations := SpreadLocations(old(history.projects.current.data.locations), id, changes))
                && history.projects.current.changesUnsaved == old(history.projects.current.changesUnsaved)
                && error == Fanout(ListenersOf(listeners, "location:updated"), LocationUpdatedPayload(old(history.projects.current.data.locations), id, changes)).error
      ensures history.projects.current == null ==> error.None?
    {
      var current := history.projects.current;
      if current == null {
        return None;
      }
      var locations := current.data.locations;
      var index := FindIndex(locations, LocationWithId(id));
      var payload := LocationChangesPayload(changes);
      if index >= 0 {
        current.data := current.data.(locations := locations[index := SpreadLocation(changes, locations[index])]);
        payload := LocationPayload(current.data.locations[index]);
      }
      var delivery := EmitInternal("location:updated", payload);
      error := delivery.error;
    }

    method UpdateEvent(id: Id, changes: EventPatch)
      modifies history.projects.current
      ensures history.projects.current != null ==>
                history.projects.current.Current() == history.projects.current.absent.updateEvent(old(history.projects.current.Current()), id, changes)
    {
      if history.projects.current != null {
        history.projects.current.UpdateEvent(id, changes);
      }
    }

    /** `updateConnection`, spreading like `updateLocation` and emitting `connection:updated`. */
    method UpdateConnection(id: Id, changes: ConnectionChanges) returns (error: Option<string>)
      modifies history.projects.current
      ensures history.projects.current != null ==>
                && history.projects.current.data == old(history.projects.current.data).(connections := SpreadConnections(old(history.projects.current.data.connections), id, changes))
                && history.projects.current.changesUnsaved == old(history.projects.current.changesUnsaved)
                && error == Fanout(ListenersOf(listeners, "connection:updated"), ConnectionUpdatedPayload(old(history.projects.current.data.connections), id, changes)).error
      ensures history.projects.current == null ==> error.None?
    {
      var current := history.projects.current;
      if current == null {
        return None;
      }
      var connections := current.data.connections;
      var index := FindIndex(connections, ConnectionWithId(id));
      var payload := ConnectionChangesPayload(changes);
      if index >= 0 {
        current.data := current.data.(connections := connections[index := SpreadConnection(changes, connections[index])]);
        payload := ConnectionPayload(current.data.connections[index]);
      }
      var delivery := EmitInternal("connection:updated", payload);
      error := delivery.error;
    }

    /** `updateCalendar`: replaces the months, with no snapshot and no unsaved flag. */
    method UpdateCalendar(months: seq<Month>)
      modifies history.projects.current
      ensures history.projects.current != null ==>
                && history.projects.current.data == old(history.projects.current.data).(calendar := Calendar(months))
                && history.projects.current.changesUnsaved == old(history.projects.current.changesUnsaved)
    {
      if history.projects.current != null {
        var current := history.projects.current;
        current.data := current.data.(calendar := current.data.calendar.(months := months));
      }
    }

    method RemoveCharacter(id: Id)
      modifies history.projects.current
      ensures history.projects.current != null ==>
                && history.projects.current.data == old(history.projects.current.data).(characters := Filter(old(history.projects.current.data.characters), CharacterWithOtherId(id)))
                && history.projects.current.changesUnsaved
    {
      if history.projects.current != null {
        history.projects.current.RemoveCharacter(id);
      }
    }

    method RemoveLocation(id: Id)
      modifies history.projects.current
      ensures history.projects.current != null ==>
                history.projects.current.Current() == history.projects.current.absent.removeLocation(old(history.projects.current.Current()), id)
    {
      if history.projects.current != null {
        history.projects.current.RemoveLocation(id);
      }
    }

    method RemoveEvent(id: Id)
      modifies history.projects.current
      ensures history.projects.current != null ==>
                history.projects.current.Current() == history.projects.current.absent.removeEvent(old(history.projects.current.Current()), id)
    {
      if history.projects.current != null {
        history.projects.current.RemoveEvent(id);
      }
    }

    method RemoveConnection(id: Id)
      modifies history.projects.current
      ensures history.projects.current != null ==>
                history.projects.current.Current() == history.projects.current.absent.removeConnection(old(history.projects.current.Current()), id)
    {
      if history.projects.current != null {
        history.projects.current.RemoveConnection(id);
      }
    }

    /**
     * `factory.createCharacter`; `id` and `now` stand for the UUID and the clock. The
     * source's default `description = ''` is the caller's to pass.
     */
    method CreateCharacter(name: string, description: string, id: Id, now: string) returns (reply: Reply<Option<Id>>)
      modifies history, history.projects.current
      ensures old(Document()).None? ==> history.State() == old(history.State()) && reply == Fulfilled(None)
      ensures old(Document()).Some? ==>
                && history.State() == CharacterCreated(old(history.State()), name, description, id, now)
                && reply == FactoryReply(Fanout(ListenersOf(listeners, "character:added"), CharacterPayload(NewCharacter(name, description, id, now))), id)
    {
      if history.projects.current == null {
        return Fulfilled(None);
      }
      history.Capture();
      var newChar := NewCharacter(name, description, id, now);
      var current := history.projects.current;
      current.data := current.data.(characters := current.data.characters + [newChar]);
      current.changesUnsaved := true;
      var delivery := EmitInternal("character:added", CharacterPayload(newChar));
      reply := FactoryReply(delivery, id);
    }

    /**
     * `factory.createEvent`: appended without sorting, with no location or participants.
     * The source's default `description = ''` is the caller's to pass.
     */
    method CreateEvent(name: string, date: Time, description: string, id: Id) returns (reply: Reply<Option<Id>>)
      modifies history, history.projects.current
      ensures old(Document()).None? ==> history.State() == old(history.State()) && reply == Fulfilled(None)
      ensures old(Document()).Some? ==>
                && history.State() == EventCreated(old(history.State()), name, date, description, id)
                && reply == FactoryReply(Fanout(ListenersOf(listeners, "event:added"), EventPayload(NewPluginEvent(name, date, description, id))), id)
    {
      if history.projects.current == null {
        return Fulfilled(None);
      }
      history.Capture();
      var newEvent := NewPluginEvent(name, date, description, id);
      var current := history.projects.current;
      current.data := current.data.(events := current.data.events + [newEvent]);
      current.changesUnsaved := true;
      var delivery := EmitInternal("event:added", EventPayload(newEvent));
      reply := FactoryReply(delivery, id);
    }

    /** `factory.createLocation`; the source's defaults `description = ''`, `x = 0`, `y = 0` are the caller's to pass. */
    method CreateLocation(name: string, description: string, x: real, y: real, id: Id) returns (reply: Reply<Option<Id>>)
      modifies history, history.projects.current
      ensures old(Document()).None? ==> history.State() == old(history.State()) && reply == Fulfilled(None)
      ensures old(Document()).Some? ==>
                && history.State() == LocationCreated(old(history.State()), name, description, x, y, id)
                && reply == FactoryReply(Fanout(ListenersOf(listeners, "location:added"), LocationPayload(NewPluginLocation(name, description, x, y, id))), id)
    {
      if history.projects.current == null {
        return Fulfilled(None);
      }
      history.Capture();
      var newLocation := NewPluginLocation(name, description, x, y, id);
      var current := history.projects.current;
      current.data := current.data.(locations := current.data.locations + [newLocation]);
      current.changesUnsaved := true;
      var delivery := EmitInternal("location:added", LocationPayload(newLocation));
      reply := FactoryReply(delivery, id);
    }
  }
}
