/** The toast list of src/lib/utils/toast.ts.

    The store's `toasts` list is the field of `ToastStore`; the id that
    `crypto.randomUUID()` produces is a parameter, and the auto-dismiss timer is
    represented by the flag telling whether it is scheduled. */
module Toast {
  import opened Wrappers

  datatype ToastType = Success | Error | Warning | Info

  /** A toast as `add` stores it: the defaults make duration and dismissible always present. */
  datatype Toast = Toast(id: string, message: string, kind: ToastType, duration: int, dismissible: bool)

  /** The object handed to `add`.  Its type omits `id`, but the object is spread over the
      defaults, so an `id` the caller's options carry reaches the stored toast. */
  datatype ToastRequest = ToastRequest(
    id: Option<string>,
    message: string,
    kind: ToastType,
    duration: Option<int>,
    dismissible: Option<bool>)

  /** The `Partial<Toast>` options of `success`, `error`, `warning` and `info`. */
  datatype ToastOptions = ToastOptions(
    id: Option<string>,
    message: Option<string>,
    kind: Option<ToastType>,
    duration: Option<int>,
    dismissible: Option<bool>)

  const DefaultDuration: int := 5000
  const ErrorDuration: int := 8000
  const NoOptions: ToastOptions := ToastOptions(None, None, None, None, None)

  /** `{ id, duration: 5000, dismissible: true, ...toast }` */
  function NewToast(generatedId: string, request: ToastRequest): (t: Toast)
    ensures t.message == request.message && t.kind == request.kind
    ensures request.id.None? ==> t.id == generatedId
    ensures request.id.Some? ==> t.id == request.id.value
    ensures request.duration.None? ==> t.duration == DefaultDuration
    ensures request.duration.Some? ==> t.duration == request.duration.value
    ensures request.dismissible.None? ==> t.dismissible
    ensures request.dismissible.Some? ==> t.dismissible == request.dismissible.value
  {
    Toast(
      request.id.GetOr(generatedId),
      request.message,
      request.kind,
      request.duration.GetOr(DefaultDuration),
      request.dismissible.GetOr(true))
  }

  /** `newToast.duration && newToast.duration > 0` */
  predicate AutoDismissScheduled(t: Toast) {
    t.duration > 0
  }

  /** The request `success`/`warning`/`info` (no default duration) or `error` (default
      duration 8000) build: `{ message, type, [duration,] ...options }`. */
  function VariantRequest(kind: ToastType, message: string, options: ToastOptions): (r: ToastRequest)
    ensures options.kind.None? ==> r.kind == kind
    ensures options.kind.Some? ==> r.kind == options.kind.value
    ensures options.message.None? ==> r.message == message
    ensures options.message.Some? ==> r.message == options.message.value
    ensures kind == Error && options.duration.None? ==> r.duration == Some(ErrorDuration)
    ensures kind != Error ==> r.duration == options.duration
    ensures options.duration.Some? ==> r.duration == options.duration
    ensures r.id == options.id && r.dismissible == options.dismissible
  {
    ToastRequest(
      options.id,
      options.message.GetOr(message),
      options.kind.GetOr(kind),
      if options.duration.Some? then options.duration
      else if kind == Error then Some(ErrorDuration) else None,
      options.dismissible)
  }

  /** Without options, an error toast stays 8 seconds and the other kinds 5 seconds, each
      with its own type, dismissible, and scheduled for auto-dismissal. */
  lemma VariantDefaults(kind: ToastType, message: string, generatedId: string)
    ensures var t := NewToast(generatedId, VariantRequest(kind, message, NoOptions));
            && t.id == generatedId && t.kind == kind && t.message == message && t.dismissible
            && t.duration == (if kind == Error then ErrorDuration else DefaultDuration)
            && AutoDismissScheduled(t)
  {
  }

  /** `toasts.filter(toast => toast.id !== id)` */
  function WithoutToast(toasts: seq<Toast>, id: string): (r: seq<Toast>)
    ensures |r| <= |toasts|
    ensures forall t :: t in r <==> t in toasts && t.id != id
  {
    if |toasts| == 0 then []
    else
      var rest := WithoutToast(toasts[1..], id);
      assert forall t :: t in toasts <==> t == toasts[0] || t in toasts[1..];
      if toasts[0].id == id then rest else [toasts[0]] + rest
  }

  /** Removing an id no toast carries leaves the list as it is. */
  lemma {:induction false} WithoutAbsentToast(toasts: seq<Toast>, id: string)
    requires forall i | 0 <= i < |toasts| :: toasts[i].id != id
    ensures WithoutToast(toasts, id) == toasts
  {
    if |toasts| > 0 {
      WithoutAbsentToast(toasts[1..], id);
      assert toasts == [toasts[0]] + toasts[1..];
    }
  }

  /** Filtering distributes over concatenation. */
  lemma {:induction false} WithoutToastAppend(a: seq<Toast>, b: seq<Toast>, id: string)
    ensures WithoutToast(a + b, id) == WithoutToast(a, id) + WithoutToast(b, id)
  {
    if |a| > 0 {
      assert (a + b)[1..] == a[1..] + b;
      WithoutToastAppend(a[1..], b, id);
    } else {
      assert a + b == b;
    }
  }

  /** Removing the id `add` returned undoes the `add` when the generated id is fresh and
      the request carries no id of its own ... */
  lemma RemoveUndoesAdd(toasts: seq<Toast>, generatedId: string, request: ToastRequest)
    requires forall i | 0 <= i < |toasts| :: toasts[i].id != generatedId
    requires request.id.None?
    ensures WithoutToast(toasts + [NewToast(generatedId, request)], generatedId) == toasts
  {
    WithoutToastAppend(toasts, [NewToast(generatedId, request)], generatedId);
    WithoutAbsentToast(toasts, generatedId);
    assert WithoutToast([NewToast(generatedId, request)], generatedId) == [];
  }

  /** ... but when the options carry another id, the stored toast gets that id, so removing
      the returned id (what the auto-dismiss timer does) leaves the toast in place. */
  lemma RemoveMissesOverriddenId(toasts: seq<Toast>, generatedId: string, request: ToastRequest)
    requires forall i | 0 <= i < |toasts| :: toasts[i].id != generatedId
    requires request.id.Some? && request.id.value != generatedId
    ensures NewToast(generatedId, request) in WithoutToast(toasts + [NewToast(generatedId, request)], generatedId)
  {
  }

  class ToastStore {
    var toasts: seq<Toast>

    constructor ()
      ensures toasts == []
    {
      toasts := [];
    }

    /** `add`: append one toast and return the generated id; `scheduled` tells whether the
        auto-dismiss timer was set. */
    method Add(request: ToastRequest, generatedId: string) returns (id: string, scheduled: bool)
      modifies this
      ensures id == generatedId
      ensures toasts == old(toasts) + [NewToast(generatedId, request)]
      ensures scheduled <==> AutoDismissScheduled(NewToast(generatedId, request))
    {
      var newToast := NewToast(generatedId, request);
      toasts := toasts + [newToast];
      scheduled := AutoDismissScheduled(newToast);
      id := generatedId;
    }

    /** `remove`: drop every toast with this id. */
    method Remove(id: string)
      modifies this
      ensures toasts == WithoutToast(old(toasts), id)
    {
      toasts := WithoutToast(toasts, id);
    }

    /** `clear` */
    method Clear()
      modifies this
      ensures toasts == []
    {
      toasts := [];
    }

    /** `success`, `error`, `warning` and `info`. */
    method Notify(kind: ToastType, message: string, options: ToastOptions, generatedId: string)
      returns (id: string, scheduled: bool)
      modifies this
      ensures id == generatedId
      ensures toasts == old(toasts) + [NewToast(generatedId, VariantRequest(kind, message, options))]
      ensures scheduled <==> AutoDismissScheduled(toasts[|toasts| - 1])
    {
      id, scheduled := Add(VariantRequest(kind, message, options), generatedId);
    }
  }
}
