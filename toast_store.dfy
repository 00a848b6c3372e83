/**
 * The toast store of src/store/useToastStore.ts: an ordered list of
 * notifications, each with a fresh id from a counter that only grows, and the
 * removal timers that `showToast` schedules.
 */
module Toasts {
  import opened Wrappers

  datatype ToastType = Success | Error | Warning | Info

  datatype Toast = Toast(id: nat, kind: ToastType, title: string, message: Option<string>, duration: int)

  /** A `setTimeout(() => removeToast(id), delay)` that `showToast` scheduled. */
  datatype Timer = Timer(id: nat, delay: int)

  /** The display time used when none, or zero, is given. */
  const DefaultDuration := 5000

  /** `toast.duration || 5000` */
  function EffectiveDuration(duration: Option<int>): (d: int)
    ensures d != 0
    ensures duration.None? || duration == Some(0) ==> d == DefaultDuration
    ensures duration.Some? && duration.value != 0 ==> d == duration.value
  {
    match duration
    case None => DefaultDuration
    case Some(v) => if v == 0 then DefaultDuration else v
  }

  /** Ids strictly increase along the list, so in particular no id occurs twice. */
  predicate Ascending(ts: seq<Toast>) {
    forall i, j :: 0 <= i < j < |ts| ==> ts[i].id < ts[j].id
  }

  /** The list with every toast carrying `id` left out, the others in their order. */
  function Without(ts: seq<Toast>, id: int): (r: seq<Toast>)
    ensures |r| <= |ts|
  {
    if ts == [] then []
    else (if ts[0].id == id then [] else [ts[0]]) + Without(ts[1..], id)
  }

  /** A toast survives exactly when it was there and does not carry `id`. */
  lemma {:induction false} WithoutMembers(ts: seq<Toast>, id: int, t: Toast)
    ensures t in Without(ts, id) <==> t in ts && t.id != id
  {
    if ts != [] {
      WithoutMembers(ts[1..], id, t);
      assert t in ts <==> t == ts[0] || t in ts[1..];
    }
  }

  lemma {:induction false} WithoutAppend(a: seq<Toast>, b: seq<Toast>, id: int)
    ensures Without(a + b, id) == Without(a, id) + Without(b, id)
  {
    if a == [] {
      assert a + b == b;
    } else {
      assert (a + b)[1..] == a[1..] + b;
      WithoutAppend(a[1..], b, id);
      var head := if a[0].id == id then [] else [a[0]];
      assert Without(a + b, id) == head + Without(a[1..] + b, id);
      assert Without(a, id) == head + Without(a[1..], id);
    }
  }

  /** Leaving out an id that no toast carries changes nothing. */
  lemma {:induction false} WithoutAbsent(ts: seq<Toast>, id: int)
    requires forall k :: 0 <= k < |ts| ==> ts[k].id != id
    ensures Without(ts, id) == ts
  {
    if ts != [] {
      WithoutAbsent(ts[1..], id);
    }
  }

  /** In an ascending list, leaving out an id is splicing out the one toast that carries it. */
  lemma {:induction false} WithoutSplice(ts: seq<Toast>, i: nat)
    requires Ascending(ts) && i < |ts|
    ensures Without(ts, ts[i].id) == ts[..i] + ts[i + 1..]
  {
    var id, rest := ts[i].id, ts[1..];
    if i == 0 {
      assert forall k :: 0 <= k < |rest| ==> rest[k].id != id by {
        forall k | 0 <= k < |rest| ensures rest[k].id != id {
          assert rest[k] == ts[k + 1];
        }
      }
      WithoutAbsent(rest, id);
    } else {
      assert rest[i - 1] == ts[i];
      WithoutSplice(rest, i - 1);
      assert Without(ts, id) == [ts[0]] + (rest[..i - 1] + rest[i..]);
      assert ts[..i] == [ts[0]] + rest[..i - 1];
      assert ts[i + 1..] == rest[i..];
    }
  }

  /** Leaving out an id keeps the list ascending. */
  lemma {:induction false} WithoutAscending(ts: seq<Toast>, id: int)
    requires Ascending(ts)
    ensures Ascending(Without(ts, id))
  {
    if ts != [] {
      WithoutAscending(ts[1..], id);
      var rest := Without(ts[1..], id);
      forall t | t in rest ensures ts[0].id < t.id {
        WithoutMembers(ts[1..], id, t);
        var k :| 0 <= k < |ts[1..]| && ts[1..][k] == t;
        assert ts[k + 1] == t;
      }
    }
  }

  /** The timer of a toast removes that toast and leaves the list as it was before it was shown. */
  lemma {:induction false} ExpiryUndoesShow(ts: seq<Toast>, t: Toast)
    requires forall k :: 0 <= k < |ts| ==> ts[k].id < t.id
    ensures Without(ts + [t], t.id) == ts
  {
    WithoutAppend(ts, [t], t.id);
    WithoutAbsent(ts, t.id);
  }

  class ToastStore {
    /** The toasts on screen, oldest first. */
    var toasts: seq<Toast>
    /** The last id handed out; `0` before the first toast. */
    var toastId: nat
    /** Every removal timer scheduled so far, in order. */
    var timers: seq<Timer>

    ghost predicate Valid()
      reads this
    {
      && Ascending(toasts)
      && (forall k :: 0 <= k < |toasts| ==> 1 <= toasts[k].id <= toastId)
      && (forall k :: 0 <= k < |timers| ==> 1 <= timers[k].id <= toastId && timers[k].delay > 0)
    }

    constructor ()
      ensures Valid() && toasts == [] && toastId == 0 && timers == []
    {
      toasts, toastId, timers := [], 0, [];
    }

    /**
     * showToast: takes the next id, appends the toast with its duration
     * defaulted, schedules its removal when that duration is positive, and
     * returns the id.
     */
    method ShowToast(kind: ToastType, title: string, message: Option<string>, duration: Option<int>) returns (id: nat)
      requires Valid()
      modifies this
      ensures Valid()
      ensures Shown(this, id, kind, title, message, duration)
    {
      toastId := toastId + 1;
      id := toastId;
      var newToast := Toast(id, kind, title, message, EffectiveDuration(duration));
      toasts := toasts + [newToast];
      if newToast.duration > 0 {
        timers := timers + [Timer(id, newToast.duration)];
      }
    }

    /**
     * removeToast: finds the first toast with `id` and splices it out; does
     * nothing when there is none. Since ids are unique this is the list
     * without that id.
     */
    method RemoveToast(id: int)
      requires Valid()
      modifies this
      ensures Valid()
      ensures toasts == Without(old(toasts), id)
      ensures toastId == old(toastId) && timers == old(timers)
    {
      var index := 0;
      while index < |toasts| && toasts[index].id != id
        invariant 0 <= index <= |toasts|
        invariant forall k :: 0 <= k < index ==> toasts[k].id != id
      {
        index := index + 1;
      }
      WithoutAscending(toasts, id);
      if index < |toasts| {
        WithoutSplice(toasts, index);
        toasts := toasts[..index] + toasts[index + 1..];
      } else {
        WithoutAbsent(toasts, id);
      }
    }

    /** clearToasts: empties the list; the id counter and pending timers stay. */
    method ClearToasts()
      requires Valid()
      modifies this
      ensures Valid()
      ensures toasts == [] && toastId == old(toastId) && timers == old(timers)
    {
      toasts := [];
    }

    method Success(title: string, message: Option<string>, duration: Option<int>) returns (id: nat)
      requires Valid()
      modifies this
      ensures Valid()
      ensures Shown(this, id, ToastType.Success, title, message, duration)
    {
      id := ShowToast(ToastType.Success, title, message, duration);
    }

    method Error(title: string, message: Option<string>, duration: Option<int>) returns (id: nat)
      requires Valid()
      modifies this
      ensures Valid()
      ensures Shown(this, id, ToastType.Error, title, message, duration)
    {
      id := ShowToast(ToastType.Error, title, message, duration);
    }

    method Warning(title: string, message: Option<string>, duration: Option<int>) returns (id: nat)
      requires Valid()
      modifies this
      ensures Valid()
      ensures Shown(this, id, ToastType.Warning, title, message, duration)
    {
      id := ShowToast(ToastType.Warning, title, message, duration);
    }

    method Info(title: string, message: Option<string>, duration: Option<int>) returns (id: nat)
      requires Valid()
      modifies this
      ensures Valid()
      ensures Shown(this, id, ToastType.Info, title, message, duration)
    {
      id := ShowToast(ToastType.Info, title, message, duration);
    }
  }

  /**
   * `store` has shown one more toast: it took the next id, appended the toast
   * with its duration defaulted, and scheduled its removal when that duration
   * is positive.
   */
  twostate predicate Shown(store: ToastStore, id: nat, kind: ToastType, title: string, message: Option<string>, duration: Option<int>)
    reads store
  {
    var d := EffectiveDuration(duration);
    && id == old(store.toastId) + 1 && store.toastId == id
    && store.toasts == old(store.toasts) + [Toast(id, kind, title, message, d)]
    && store.timers == old(store.timers) + (if d > 0 then [Timer(id, d)] else [])
  }

  /**
   * A toast shown and then expired by its own timer leaves the list as it
   * was, and the ids of later toasts keep increasing after a clear.
   */
  method ShowExpireClearShow(store: ToastStore, title: string) returns (first: nat, second: nat)
    requires store.Valid()
    modifies store
    ensures store.Valid()
    ensures first == old(store.toastId) + 1 && second == first + 1
    ensures store.toasts == [Toast(second, Info, title, None, DefaultDuration)]
  {
    ghost var before := store.toasts;
    first := store.Info(title, None, None);
    ExpiryUndoesShow(before, store.toasts[|store.toasts| - 1]);
    store.RemoveToast(first);
    assert store.toasts == before;
    store.ClearToasts();
    second := store.Info(title, None, None);
  }
}
