/**
 * The `useToast` composable of src/composables/useToast.ts: a thin layer
 * over the toast store whose only logic of its own is the default type.
 */
module UseToast {
  import opened Wrappers
  import Toasts

  /** The argument of `toast(options)`; `kind` is the optional `type`. */
  datatype ToastOptions = ToastOptions(kind: Option<Toasts.ToastType>, title: string, message: Option<string>, duration: Option<int>)

  /** `options.type || "info"` */
  function KindOrInfo(kind: Option<Toasts.ToastType>): (k: Toasts.ToastType)
    ensures kind.None? ==> k == Toasts.Info
    ensures kind.Some? ==> k == kind.value
  {
    kind.GetOr(Toasts.Info)
  }

  /** toast: shows a toast of the given type, "info" when none is given, passing the rest through. */
  method Toast(store: Toasts.ToastStore, options: ToastOptions) returns (id: nat)
    requires store.Valid()
    modifies store
    ensures store.Valid()
    ensures Toasts.Shown(store, id, KindOrInfo(options.kind), options.title, options.message, options.duration)
  {
    id := store.ShowToast(KindOrInfo(options.kind), options.title, options.message, options.duration);
  }

  method Success(store: Toasts.ToastStore, title: string, message: Option<string>, duration: Option<int>) returns (id: nat)
    requires store.Valid()
    modifies store
    ensures store.Valid()
    ensures Toasts.Shown(store, id, Toasts.Success, title, message, duration)
  {
    id := store.Success(title, message, duration);
  }

  method Error(store: Toasts.ToastStore, title: string, message: Option<string>, duration: Option<int>) returns (id: nat)
    requires store.Valid()
    modifies store
    ensures store.Valid()
    ensures Toasts.Shown(store, id, Toasts.Error, title, message, duration)
  {
    id := store.Error(title, message, duration);
  }

  method Warning(store: Toasts.ToastStore, title: string, message: Option<string>, duration: Option<int>) returns (id: nat)
    requires store.Valid()
    modifies store
    ensures store.Valid()
    ensures Toasts.Shown(store, id, Toasts.Warning, title, message, duration)
  {
    id := store.Warning(title, message, duration);
  }

  method Info(store: Toasts.ToastStore, title: string, message: Option<string>, duration: Option<int>) returns (id: nat)
    requires store.Valid()
    modifies store
    ensures store.Valid()
    ensures Toasts.Shown(store, id, Toasts.Info, title, message, duration)
  {
    id := store.Info(title, message, duration);
  }

  /** dismiss: exactly removeToast. */
  method Dismiss(store: Toasts.ToastStore, id: int)
    requires store.Valid()
    modifies store
    ensures store.Valid()
    ensures store.toasts == Toasts.Without(old(store.toasts), id)
    ensures store.toastId == old(store.toastId) && store.timers == old(store.timers)
  {
    store.RemoveToast(id);
  }

  /** clear: the list is left empty. */
  method Clear(store: Toasts.ToastStore)
    requires store.Valid()
    modifies store
    ensures store.Valid()
    ensures store.toasts == [] && store.toastId == old(store.toastId) && store.timers == old(store.timers)
  {
    store.ClearToasts();
  }
}
