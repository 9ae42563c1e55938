/**
 * The toast hook: one notification record that `showToast` replaces and
 * `hideToast` hides.
 */
module Toast {
  import opened Base

  datatype ToastType = Success | Error | Info

  datatype ToastState = ToastState(isVisible: bool, message: string, kind: ToastType)

  const InitialToast: ToastState := ToastState(false, "", Success)

  /** `showToast(message, type)`; an omitted type is `success`. */
  function Shown(message: string, kind: Option<ToastType>): ToastState {
    ToastState(true, message, kind.GetOr(Success))
  }

  /** `hideToast()`. */
  function Hidden(s: ToastState): ToastState {
    s.(isVisible := false)
  }

  /**
   * Showing replaces the whole record whatever was there: the toast is
   * visible with exactly the given message and type, `success` by default.
   */
  lemma ShowSpec(s: ToastState, message: string, kind: Option<ToastType>)
    ensures Shown(message, kind).isVisible && Shown(message, kind).message == message
    ensures kind.Some? ==> Shown(message, kind).kind == kind.value
    ensures kind.None? ==> Shown(message, kind).kind == Success
  {
  }

  /**
   * Hiding keeps the message and type, changes nothing else, and a second
   * hide changes nothing.
   */
  lemma HideSpec(s: ToastState)
    ensures !Hidden(s).isVisible
    ensures Hidden(s).message == s.message && Hidden(s).kind == s.kind
    ensures Hidden(Hidden(s)) == Hidden(s)
    ensures !s.isVisible ==> Hidden(s) == s
  {
  }

  /** Showing and then hiding leaves the last message in place, out of sight. */
  lemma ShowThenHide(message: string, kind: Option<ToastType>)
    ensures Hidden(Shown(message, kind)) == ToastState(false, message, kind.GetOr(Success))
  {
  }

  /** The hook's `toast` state. */
  class ToastHook {
    var toast: ToastState

    constructor()
      ensures toast == InitialToast
    {
      toast := ToastState(false, "", Success);
    }

    method ShowToast(message: string, kind: Option<ToastType>)
      modifies this
      ensures toast == Shown(message, kind)
    {
      var t := if kind.Some? then kind.value else Success;
      toast := ToastState(true, message, t);
    }

    method HideToast()
      modifies this
      ensures toast == Hidden(old(toast))
    {
      toast := toast.(isVisible := false);
    }
  }
}
