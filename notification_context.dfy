/** The notification provider: one snackbar record, opened by the `show*` calls and closed by `handleClose`. */
module NotificationContext {
  import Wrappers

  /** The severities of the alert. */
  datatype AlertColor = Success | Error | Warning | Info

  datatype SnackbarState = SnackbarState(open: bool, message: string, variant: AlertColor)

  const InitialSnackbar := SnackbarState(false, "", Info)
  const ClickAway := "clickaway"
  const OutsideProvider := "useNotification must be used within a NotificationProvider"

  /** The record after closing for `reason`: a click away keeps it, anything else closes it. */
  function Closed(s: SnackbarState, reason: Wrappers.Option<string>): (r: SnackbarState)
    ensures reason == Wrappers.Some(ClickAway) ==> r == s
    ensures reason != Wrappers.Some(ClickAway) ==> !r.open
    ensures r.message == s.message && r.variant == s.variant
  {
    if reason == Wrappers.Some(ClickAway) then s else s.(open := false)
  }

  /** Closing twice for the same reason is closing once. */
  lemma CloseIdempotent(s: SnackbarState, reason: Wrappers.Option<string>)
    ensures Closed(Closed(s, reason), reason) == Closed(s, reason)
  {
  }

  class NotificationProvider {
    var snackbar: SnackbarState

    /** The initial record: closed, empty, `info`. */
    constructor ()
      ensures snackbar == InitialSnackbar
    {
      snackbar := InitialSnackbar;
    }

    /** `showNotification(message, variant)`: opens with that message and variant, whatever came before. */
    method ShowNotification(message: string, variant: AlertColor)
      modifies this
      ensures snackbar == SnackbarState(true, message, variant)
    {
      snackbar := SnackbarState(true, message, variant);
    }

    method ShowSuccess(message: string)
      modifies this
      ensures snackbar == SnackbarState(true, message, Success)
    {
      ShowNotification(message, Success);
    }

    method ShowError(message: string)
      modifies this
      ensures snackbar == SnackbarState(true, message, Error)
    {
      ShowNotification(message, Error);
    }

    method ShowWarning(message: string)
      modifies this
      ensures snackbar == SnackbarState(true, message, Warning)
    {
      ShowNotification(message, Warning);
    }

    method ShowInfo(message: string)
      modifies this
      ensures snackbar == SnackbarState(true, message, Info)
    {
      ShowNotification(message, Info);
    }

    /** `handleClose(event, reason)`; the event is not used. */
    method HandleClose(reason: Wrappers.Option<string>)
      modifies this
      ensures snackbar == Closed(old(snackbar), reason)
    {
      if reason == Wrappers.Some(ClickAway) {
        return;
      }
      snackbar := snackbar.(open := false);
    }
  }

  /** The `useNotification` guard: outside a provider it raises, inside it yields the provider. */
  function UseNotification(context: Wrappers.Option<NotificationProvider>): (r: Wrappers.Result<NotificationProvider, string>)
    ensures context.None? <==> r == Wrappers.Failure(OutsideProvider)
    ensures context.Some? ==> r == Wrappers.Success(context.value)
  {
    match context
    case None => Wrappers.Failure(OutsideProvider)
    case Some(p) => Wrappers.Success(p)
  }
}
