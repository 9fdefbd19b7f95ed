/**
 * The older plugin bridge (API version 1.0.0): a listener table and two factory calls.
 * Its read-only data getters are the shared `PluginApi.Get*` functions. The plugin
 * loader does not use it.
 */
module LegacyBridge {
  import opened Wrappers
  import opened Model
  import opened JsMaps
  import opened History
  import opened PluginApi

  const API_VERSION := "1.0.0"

  class PluginBridge {
    const history: HistoryStore
    var listeners: Table

    constructor (history: HistoryStore)
      ensures this.history == history && listeners == Empty()
    {
      this.history := history;
      listeners := Empty();
    }

    ghost predicate Valid()
      reads this
    {
      JsMaps.Valid(listeners)
    }

    function Document(): Option<Live>
      reads history.projects, history.projects.current
    {
      if history.projects.current == null then None else Some(history.projects.current.Current())
    }

    method On(event: string, callback: Listener)
      requires Valid()
      modifies this
      ensures Valid()
      ensures listeners == Subscribed(old(listeners), event, callback)
    {
      if Get(listeners, event).None? {
        listeners := Set(listeners, event, []);
      }
      var callbacks := Get(listeners, event).value;
      listeners := Set(listeners, event, callbacks + [callback]);
    }

    method EmitInternal(event: string, payload: Payload) returns (delivery: Delivery)
      ensures delivery == Fanout(ListenersOf(listeners, event), payload)
    {
      var callbacks := ListenersOf(listeners, event);
      var i := 0;
      while i < |callbacks|
        invariant 0 <= i <= |callbacks|
        invariant forall j :: 0 <= j < i ==> callbacks[j].callback(payload).None?
      {
        var thrown := callbacks[i].callback(payload);
        if thrown.Some? {
          return Delivery(i + 1, thrown);
        }
        i := i + 1;
      }
      delivery := Delivery(|callbacks|, None);
    }

    /** `factory.createCharacter`; the source's default `description = ''` is the caller's to pass. */
    method CreateCharacter(name: string, description: string, id: Id, now: string) returns (reply: Reply<Option<Id>>)
      modifies history, history.projects.current
      ensures old(Document()).None? ==> history.State() == old(history.State()) && reply == Fulfilled(None)
      ensures old(Document()).Some? ==>
                && history.State() == CharacterCreated(old(history.State()), name, description, id, now)
                && reply == FactoryReply(Fanout(ListenersOf(listeners, "character:added"), CharacterPayload(NewCharacter(name, description, id, now))), id)
    {
      if history.projects.current == null {
        return Fulfilled(None);
      }
      history.Capture();
      var newChar := NewCharacter(name, description, id, now);
      var current := history.projects.current;
      current.data := current.data.(characters := current.data.characters + [newChar]);
      current.changesUnsaved := true;
      var delivery := EmitInternal("character:added", CharacterPayload(newChar));
      reply := FactoryReply(delivery, id);
    }

    /** `factory.createEvent`; the source's default `description = ''` is the caller's to pass. */
    method CreateEvent(name: string, date: Time, description: string, id: Id) returns (reply: Reply<Option<Id>>)
      modifies history, history.projects.current
      ensures old(Document()).None? ==> history.State() == old(history.State()) && reply == Fulfilled(None)
      ensures old(Document()).Some? ==>
                && history.State() == EventCreated(old(history.State()), name, date, description, id)
                && reply == FactoryReply(Fanout(ListenersOf(listeners, "event:added"), EventPayload(NewPluginEvent(name, date, description, id))), id)
    {
      if history.projects.current == null {
        return Fulfilled(None);
      }
      history.Capture();
      var newEvent := NewPluginEvent(name, date, description, id);
      var current := history.projects.current;
      current.data := current.data.(events := current.data.events + [newEvent]);
      current.changesUnsaved := true;
      var delivery := EmitInternal("event:added", EventPayload(newEvent));
      reply := FactoryReply(delivery, id);
    }
  }
}
