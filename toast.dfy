/** The toast queue (context/ToastContext.tsx): messages shown in order, each removed by
    its id, either by the user or by a timer set when it was shown. */
module ToastContext {
  import opened Wrappers
  import opened Seqs

  datatype ToastType = SuccessToast | ErrorToast

  datatype ToastMessage = ToastMessage(id: int, message: string, kind: ToastType)

  /** A pending `setTimeout(() => removeToast(id), 4000)`. */
  datatype Timer = Timer(id: int, due: int)

  const DismissAfterMs: int := 4000

  /** The toast `showToast` adds; the type defaults to success. */
  function NewToast(message: string, kind: Option<ToastType>, now: int): (t: ToastMessage)
    ensures t.id == now && t.message == message
    ensures kind.None? ==> t.kind == SuccessToast
  {
    ToastMessage(now, message, kind.GetOr(SuccessToast))
  }

  /** The list `removeToast(id)` produces. */
  function RemoveById(toasts: seq<ToastMessage>, id: int): (r: seq<ToastMessage>)
    ensures forall t :: t in r <==> t in toasts && t.id != id
  {
    Filter(toasts, (t: ToastMessage) => t.id != id)
  }

  /** Removing an unknown id changes nothing; removing twice is removing once. */
  lemma RemoveUnknownAndTwice(toasts: seq<ToastMessage>, id: int)
    ensures (forall t :: t in toasts ==> t.id != id) ==> RemoveById(toasts, id) == toasts
    ensures RemoveById(RemoveById(toasts, id), id) == RemoveById(toasts, id)
  {
    if forall t :: t in toasts ==> t.id != id {
      FilterAll(toasts, (t: ToastMessage) => t.id != id);
    }
    FilterIdempotent(toasts, (t: ToastMessage) => t.id != id);
  }

  /** Removal keeps the other toasts in their order. */
  lemma RemoveKeepsOrder(xs: seq<ToastMessage>, ys: seq<ToastMessage>, id: int)
    ensures RemoveById(xs + ys, id) == RemoveById(xs, id) + RemoveById(ys, id)
  {
    FilterAppend(xs, ys, (t: ToastMessage) => t.id != id);
  }

  /** The timer of a toast takes it off again: showing then dismissing leaves what was there,
      minus any toast shown in the same millisecond. */
  lemma ShowThenDismiss(toasts: seq<ToastMessage>, message: string, kind: Option<ToastType>, now: int)
    ensures RemoveById(toasts + [NewToast(message, kind, now)], now) == RemoveById(toasts, now)
  {
    RemoveKeepsOrder(toasts, [NewToast(message, kind, now)], now);
    assert RemoveById([NewToast(message, kind, now)], now) == [];
  }

  class ToastQueue {
    var toasts: seq<ToastMessage>
    /** Pending dismissal timers, in the order they were set. */
    var timers: seq<Timer>

    /** Every toast on screen still has a dismissal timer for its id. */
    ghost predicate Valid()
      reads this
    {
      forall t :: t in toasts ==> exists tm :: tm in timers && tm.id == t.id
    }

    constructor ()
      ensures toasts == [] && timers == [] && Valid()
    {
      toasts := [];
      timers := [];
    }

    method ShowToast(message: string, kind: Option<ToastType>, now: int)
      requires Valid()
      modifies this
      ensures toasts == old(toasts) + [NewToast(message, kind, now)]
      ensures timers == old(timers) + [Timer(now, now + DismissAfterMs)]
      ensures Valid()
    {
      var id := now;
      toasts := toasts + [ToastMessage(id, message, kind.GetOr(SuccessToast))];
      timers := timers + [Timer(id, now + DismissAfterMs)];
      forall t | t in toasts ensures exists tm :: tm in timers && tm.id == t.id {
        if t !in old(toasts) {
          assert Timer(id, now + DismissAfterMs) in timers;
        } else {
          var tm :| tm in old(timers) && tm.id == t.id;
          assert tm in timers;
        }
      }
    }

    method RemoveToast(id: int)
      requires Valid()
      modifies this`toasts
      ensures toasts == RemoveById(old(toasts), id)
      ensures Valid()
    {
      toasts := RemoveById(toasts, id);
    }

    /** The earliest pending timer fires and removes the toasts with its id. */
    method FireNextTimer()
      requires Valid()
      modifies this
      ensures old(timers) == [] ==> toasts == old(toasts) && timers == []
      ensures old(timers) != [] ==>
                toasts == RemoveById(old(toasts), old(timers)[0].id) && timers == old(timers)[1..]
      ensures Valid()
    {
      if timers != [] {
        var fired := timers[0];
        toasts := RemoveById(toasts, fired.id);
        timers := timers[1..];
        forall t | t in toasts ensures exists tm :: tm in timers && tm.id == t.id {
          var tm :| tm in old(timers) && tm.id == t.id;
          assert tm != fired;
          assert tm in old(timers)[1..];
        }
      }
    }
  }
}
