/**
 * The toast list: `add` appends a notification under a fresh id and `remove` filters it
 * out. The timer that removes a toast after its duration is not modelled.
 */
module Toasts {
  import opened Wrappers
  import opened Seqs
  import opened Sorting

  datatype ToastType = Success | Error | Info | Warning

  datatype Toast = Toast(id: string, message: string, kind: ToastType, duration: int)

  /** What a caller passes to `add`; absent arguments take the defaults. */
  datatype ToastRequest = ToastRequest(message: string, kind: ToastType, duration: int)

  const DEFAULT_TYPE: ToastType := Info
  const DEFAULT_DURATION: int := 3000

  /** `add(message, type?, duration?)` with its default arguments filled in. */
  function Request(message: string, kind: Option<ToastType>, duration: Option<int>): (r: ToastRequest)
    ensures r.message == message
    ensures r.kind == if kind.None? then Info else kind.value
    ensures r.duration == if duration.None? then 3000 else duration.value
  {
    ToastRequest(message, kind.GetOr(DEFAULT_TYPE), duration.GetOr(DEFAULT_DURATION))
  }

  function ToastId(t: Toast): string {
    t.id
  }

  function ToastWithOtherId(id: string): Toast -> bool {
    (t: Toast) => t.id != id
  }

  /** `items.filter(t => t.id !== id)`. */
  function WithoutToast(items: seq<Toast>, id: string): (r: seq<Toast>)
    ensures forall i :: 0 <= i < |r| ==> r[i].id != id && r[i] in items
    ensures forall i :: 0 <= i < |items| && items[i].id != id ==> items[i] in r
    ensures (forall i :: 0 <= i < |items| ==> items[i].id != id) ==> r == items
  {
    Filter(items, ToastWithOtherId(id))
  }

  /** Removing the toast just added under a fresh id gives the list back. */
  lemma {:induction false} AddThenRemove(items: seq<Toast>, t: Toast)
    requires forall i :: 0 <= i < |items| ==> items[i].id != t.id
    ensures WithoutToast(items + [t], t.id) == items
  {
    FilterAppend(items, [t], ToastWithOtherId(t.id));
    assert Filter([t], ToastWithOtherId(t.id)) == [];
  }

  /** Fresh ids keep the ids unique, and removal keeps them unique. */
  lemma UniqueIdsPreserved(items: seq<Toast>, t: Toast, id: string)
    requires DistinctBy(items, ToastId)
    requires forall i :: 0 <= i < |items| ==> items[i].id != t.id
    ensures DistinctBy(items + [t], ToastId)
    ensures DistinctBy(WithoutToast(items, id), ToastId)
  {
    FilterDistinctBy(items, ToastWithOtherId(id), ToastId);
  }

  class ToastStore {
    var items: seq<Toast>

    constructor ()
      ensures items == []
    {
      items := [];
    }

    /** `add`; `id` stands for the `randomUUID()` the toast is given. */
    method Add(request: ToastRequest, id: string)
      modifies this
      ensures items == old(items) + [Toast(id, request.message, request.kind, request.duration)]
    {
      items := items + [Toast(id, request.message, request.kind, request.duration)];
    }

    method Remove(id: string)
      modifies this
      ensures items == WithoutToast(old(items), id)
    {
      items := Filter(items, ToastWithOtherId(id));
    }
  }
}
