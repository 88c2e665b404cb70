/** The toast notifications: the queue kept by `useToast`, its typed
    shortcuts, and whether a toast renders and closes itself. */
module Toast {
  import opened Wrappers
  import opened Seqs

  datatype ToastKind = Success | Error | Info | Warning

  /** One queued toast; its id is the random text `showToast` draws, given here. */
  datatype ToastEntry = ToastEntry(id: string, kind: ToastKind, message: string)

  /** The background classes of each kind. */
  function BackgroundColor(kind: ToastKind): (r: string)
    ensures kind == Success ==> r == "bg-green-50 border-green-200"
    ensures kind == Error ==> r == "bg-red-50 border-red-200"
    ensures kind == Info ==> r == "bg-blue-50 border-blue-200"
    ensures kind == Warning ==> r == "bg-amber-50 border-amber-200"
  {
    match kind
    case Success => "bg-green-50 border-green-200"
    case Error => "bg-red-50 border-red-200"
    case Info => "bg-blue-50 border-blue-200"
    case Warning => "bg-amber-50 border-amber-200"
  }

  /** What a toast shows: its background and its message. */
  datatype ToastView = ToastView(background: string, message: string)

  /** The `Toast` component: nothing when not visible, otherwise the kind's
      background and the message. */
  function RenderToast(kind: ToastKind, message: string, isVisible: bool): (r: Option<ToastView>)
    ensures r.None? <==> !isVisible
    ensures r.Some? ==> r.value.message == message && r.value.background == BackgroundColor(kind)
  {
    if !isVisible then None else Some(ToastView(BackgroundColor(kind), message))
  }

  /** The duration a toast gets when the caller gives none, in milliseconds. */
  const DefaultDuration := 5000

  /** The close timer's delay, if one is set: the duration defaults to
      5000 ms, and a timer is set only for a visible toast whose duration is
      positive. */
  function CloseDelay(isVisible: bool, duration: Option<int>): (r: Option<int>)
    ensures r.Some? ==> isVisible && r.value > 0
    ensures r.None? <==> !isVisible || (duration.Some? && duration.value <= 0)
    ensures isVisible && duration.None? ==> r == Some(DefaultDuration)
    ensures r.Some? && duration.Some? ==> r.value == duration.value
  {
    var d := duration.GetOr(DefaultDuration);
    if isVisible && d > 0 then Some(d) else None
  }

  /** The kinds have distinct backgrounds, so a toast's colour tells its kind. */
  lemma BackgroundTellsKind(a: ToastKind, b: ToastKind)
    requires BackgroundColor(a) == BackgroundColor(b)
    ensures a == b
  {
  }

  /** `prev.filter(toast => toast.id !== id)`. */
  function WithoutToast(toasts: seq<ToastEntry>, id: string): (r: seq<ToastEntry>)
    ensures IsSubseq(r, toasts)
    ensures forall i :: 0 <= i < |r| ==> r[i].id != id
    ensures forall i :: 0 <= i < |toasts| && toasts[i].id != id ==> toasts[i] in r
    ensures forall x :: multiset(r)[x] == if x.id != id then multiset(toasts)[x] else 0
  {
    FilterCounts((t: ToastEntry) => t.id != id, toasts);
    Filter((t: ToastEntry) => t.id != id, toasts)
  }

  /** Removing an id that is not queued changes nothing. */
  lemma RemoveAbsent(toasts: seq<ToastEntry>, id: string)
    requires forall i :: 0 <= i < |toasts| ==> toasts[i].id != id
    ensures WithoutToast(toasts, id) == toasts
  {
    FilterAll((t: ToastEntry) => t.id != id, toasts);
  }

  /** Showing a toast under a fresh id and closing it restores the queue. */
  lemma ShowThenRemove(toasts: seq<ToastEntry>, t: ToastEntry)
    requires forall i :: 0 <= i < |toasts| ==> toasts[i].id != t.id
    ensures WithoutToast(toasts + [t], t.id) == toasts
  {
    FilterConcat((e: ToastEntry) => e.id != t.id, toasts, [t]);
    RemoveAbsent(toasts, t.id);
  }

  /** The queue of `useToast`. */
  class ToastQueue {
    var toasts: seq<ToastEntry>

    constructor ()
      ensures toasts == []
    {
      toasts := [];
    }

    /** `showToast`: one toast appended at the end, the others unchanged. */
    method ShowToast(kind: ToastKind, message: string, id: string)
      modifies this
      ensures toasts == old(toasts) + [ToastEntry(id, kind, message)]
    {
      toasts := toasts + [ToastEntry(id, kind, message)];
    }

    /** `removeToast`. */
    method RemoveToast(id: string)
      modifies this
      ensures toasts == WithoutToast(old(toasts), id)
    {
      toasts := Filter((t: ToastEntry) => t.id != id, toasts);
    }

    method ShowSuccess(message: string, id: string)
      modifies this
      ensures toasts == old(toasts) + [ToastEntry(id, Success, message)]
    {
      ShowToast(Success, message, id);
    }

    method ShowError(message: string, id: string)
      modifies this
      ensures toasts == old(toasts) + [ToastEntry(id, Error, message)]
    {
      ShowToast(Error, message, id);
    }

    method ShowInfo(message: string, id: string)
      modifies this
      ensures toasts == old(toasts) + [ToastEntry(id, Info, message)]
    {
      ShowToast(Info, message, id);
    }

    method ShowWarning(message: string, id: string)
      modifies this
      ensures toasts == old(toasts) + [ToastEntry(id, Warning, message)]
    {
      ShowToast(Warning, message, id);
    }

    /** `ToastContainer`: every queued toast, visible, in queue order. */
    function Rendered(): (r: seq<Option<ToastView>>)
      reads this
      ensures |r| == |toasts|
      ensures forall i :: 0 <= i < |toasts| ==> r[i] == Some(ToastView(BackgroundColor(toasts[i].kind), toasts[i].message))
    {
      Map((t: ToastEntry) => RenderToast(t.kind, t.message, true), toasts)
    }
  }
}
