/** The toast notifications (`Toast.jsx`): a list of messages, each removed by id when its
    timer elapses or when it is dismissed. */
module Toast {
  import opened Wrappers
  import opened Seqs

  /** One toast; its id is the `Date.now()` reading taken when it was added. */
  datatype Item = Item(id: int, message: string, kind: string)

  /** A scheduled removal of the toasts with `id`, due at `dueAt` milliseconds. */
  datatype Timer = Timer(id: int, dueAt: int)

  const DefaultKind := "info"
  const DefaultDuration := 3000

  /** The list without the toasts carrying `id`, the rest in their order. */
  function WithoutId(toasts: seq<Item>, id: int): (r: seq<Item>)
    ensures forall i :: 0 <= i < |r| ==> r[i].id != id
    ensures forall t :: t in toasts && t.id != id ==> t in r
    ensures forall t :: t in r ==> t in toasts
    ensures Subsequence(r, toasts)
  {
    var keep := (t: Item) => t.id != id;
    FilterIsSubsequence(toasts, keep);
    Filter(toasts, keep)
  }

  /** Removing an id that no toast carries changes nothing. */
  lemma WithoutAbsentId(toasts: seq<Item>, id: int)
    requires forall i :: 0 <= i < |toasts| ==> toasts[i].id != id
    ensures WithoutId(toasts, id) == toasts
  {
    FilterAll(toasts, (t: Item) => t.id != id);
  }

  /** Removing the same id twice is removing it once. */
  lemma WithoutIdIdempotent(toasts: seq<Item>, id: int)
    ensures WithoutId(WithoutId(toasts, id), id) == WithoutId(toasts, id)
  {
    WithoutAbsentId(WithoutId(toasts, id), id);
  }

  class ToastProvider {
    var toasts: seq<Item>
    /** The removals `addToast` has scheduled and that have not fired yet. */
    var timers: seq<Timer>

    constructor ()
      ensures toasts == [] && timers == []
    {
      toasts := [];
      timers := [];
    }

    /** `addToast(message, type = 'info', duration = 3000)`: the toast goes at the end of the
        list with the current time as id, and its removal is scheduled `duration` later. */
    method AddToast(message: string, kind: Option<string>, duration: Option<int>, now: int)
      modifies this
      ensures toasts == old(toasts) + [Item(now, message, kind.GetOr(DefaultKind))]
      ensures timers == old(timers) + [Timer(now, now + duration.GetOr(DefaultDuration))]
    {
      toasts := toasts + [Item(now, message, kind.GetOr(DefaultKind))];
      timers := timers + [Timer(now, now + duration.GetOr(DefaultDuration))];
    }

    /** `removeToast`: dismiss every toast with that id. */
    method RemoveToast(id: int)
      modifies this
      ensures toasts == WithoutId(old(toasts), id)
      ensures timers == old(timers)
    {
      toasts := WithoutId(toasts, id);
    }

    /** The `k`-th pending timer fires and removes by its id. */
    method TimerFires(k: int)
      requires 0 <= k < |timers|
      modifies this
      ensures toasts == WithoutId(old(toasts), old(timers)[k].id)
      ensures timers == old(timers)[..k] + old(timers)[k + 1..]
    {
      toasts := WithoutId(toasts, timers[k].id);
      timers := timers[..k] + timers[k + 1..];
    }
  }

  /** Two toasts added in the same millisecond share an id, so the first one's timer takes
      both away, while a toast added at another time stays. */
  method SameMillisecondRemovedTogether(earlier: string, first: string, second: string, before: int, now: int)
    returns (remaining: seq<Item>)
    requires before != now
    ensures forall t :: t in remaining <==> t == Item(before, earlier, DefaultKind)
  {
    var provider := new ToastProvider();
    provider.AddToast(earlier, None, None, before);
    provider.AddToast(first, None, None, now);
    provider.AddToast(second, Some("success"), None, now);
    provider.TimerFires(1);
    remaining := provider.toasts;
  }

  /** `useToast`: the context, or the error thrown outside the provider. */
  function UseToast(context: Option<ToastProvider>): (r: Result<ToastProvider, string>)
    ensures r.Success? <==> context.Some?
    ensures r.Success? ==> r.value == context.value
    ensures r.Failure? ==> r.error == "useToast must be used within ToastProvider"
  {
    if context.None? then Failure("useToast must be used within ToastProvider")
    else Success(context.value)
  }
}
