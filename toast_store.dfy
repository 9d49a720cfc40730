/** The notification list of src/stores/toastStore.ts. The random id of a new
    toast is a parameter, and the timer that removes it later is the delay
    `AddToast` returns followed by a separate `RemoveToast` step. */
module Toasts {
  import opened Types

  datatype ToastType = Success | Error | Info | Warning

  datatype Toast = Toast(id: string, kind: ToastType, message: string, duration: Option<int>)

  /** `toast.duration || 5000`: an absent or zero duration falls back to 5000 ms. */
  function AutoRemoveDelay(duration: Option<int>): (delay: int)
    ensures duration.Some? && duration.value != 0 ==> delay == duration.value
    ensures duration.None? || duration.value == 0 ==> delay == 5000
    ensures delay != 0
  {
    if duration.Some? && duration.value != 0 then duration.value else 5000
  }

  /** `toasts.filter((t) => t.id !== id)` */
  function WithoutId(toasts: seq<Toast>, id: string): (r: seq<Toast>)
    ensures forall t :: t in r <==> t in toasts && t.id != id
    ensures |r| <= |toasts|
    ensures (forall t :: t in toasts ==> t.id != id) ==> r == toasts
  {
    if toasts == [] then []
    else if toasts[0].id == id then WithoutId(toasts[1..], id)
    else [toasts[0]] + WithoutId(toasts[1..], id)
  }

  /** The filter works element by element, so it keeps the survivors in
      their original order. */
  lemma {:induction false} WithoutIdAppend(a: seq<Toast>, b: seq<Toast>, id: string)
    ensures WithoutId(a + b, id) == WithoutId(a, id) + WithoutId(b, id)
  {
    if a == [] {
      assert a + b == b;
    } else {
      assert (a + b)[0] == a[0];
      assert (a + b)[1..] == a[1..] + b;
      WithoutIdAppend(a[1..], b, id);
    }
  }

  /** Removing twice is removing once. */
  lemma WithoutIdIdempotent(toasts: seq<Toast>, id: string)
    ensures WithoutId(WithoutId(toasts, id), id) == WithoutId(toasts, id)
  {
  }

  /** When a toast's id is fresh, its expiry undoes exactly its addition. */
  lemma AddThenExpire(toasts: seq<Toast>, t: Toast)
    requires forall u :: u in toasts ==> u.id != t.id
    ensures WithoutId(toasts + [t], t.id) == toasts
  {
    WithoutIdAppend(toasts, [t], t.id);
    assert WithoutId([t], t.id) == [];
  }

  class ToastStore {
    var toasts: seq<Toast>

    constructor ()
      ensures toasts == []
    {
      toasts := [];
    }

    /** `addToast`: appends the toast with the generated `id`, and returns the
        delay after which the timer removes that id. */
    method AddToast(kind: ToastType, message: string, duration: Option<int>, id: string) returns (delay: int)
      modifies this
      ensures toasts == old(toasts) + [Toast(id, kind, message, duration)]
      ensures duration.Some? && duration.value != 0 ==> delay == duration.value
      ensures duration.None? || duration.value == 0 ==> delay == 5000
    {
      toasts := toasts + [Toast(id, kind, message, duration)];
      delay := AutoRemoveDelay(duration);
    }

    /** `removeToast`, and the timer's callback: drops every toast with that id. */
    method RemoveToast(id: string)
      modifies this
      ensures toasts == WithoutId(old(toasts), id)
    {
      toasts := WithoutId(toasts, id);
    }

    method ClearAll()
      modifies this
      ensures toasts == []
    {
      toasts := [];
    }

    /** The `useToast` helpers: each adds a toast of its own type. */
    method ShowSuccess(message: string, duration: Option<int>, id: string) returns (delay: int)
      modifies this
      ensures toasts == old(toasts) + [Toast(id, Success, message, duration)]
      ensures delay == AutoRemoveDelay(duration)
    {
      delay := AddToast(Success, message, duration, id);
    }

    method ShowError(message: string, duration: Option<int>, id: string) returns (delay: int)
      modifies this
      ensures toasts == old(toasts) + [Toast(id, Error, message, duration)]
      ensures delay == AutoRemoveDelay(duration)
    {
      delay := AddToast(Error, message, duration, id);
    }

    method ShowInfo(message: string, duration: Option<int>, id: string) returns (delay: int)
      modifies this
      ensures toasts == old(toasts) + [Toast(id, Info, message, duration)]
      ensures delay == AutoRemoveDelay(duration)
    {
      delay := AddToast(Info, message, duration, id);
    }

    method ShowWarning(message: string, duration: Option<int>, id: string) returns (delay: int)
      modifies this
      ensures toasts == old(toasts) + [Toast(id, Warning, message, duration)]
      ensures delay == AutoRemoveDelay(duration)
    {
      delay := AddToast(Warning, message, duration, id);
    }
  }

  /** Two toasts shown, the first one expires: the second stays, and the
      delay for a zero duration is the default. */
  method ShowTwoThenExpire(first: string, second: string) returns (remaining: seq<Toast>, delay: int)
    requires first != second
    ensures remaining == [Toast(second, Info, "saved", None)]
    ensures delay == 5000
  {
    var store := new ToastStore();
    delay := store.ShowError("failed", Some(0), first);
    var d := store.ShowInfo("saved", None, second);
    store.RemoveToast(first);
    remaining := store.toasts;
  }
}
