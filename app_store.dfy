/** The application store (stores/app.ts): a global loading flag and a single notification
    slot that each new notification overwrites. */
module App {

  datatype NotificationType = Success | Error | Warning | Info

  /** The source's field `type` is `kind` here, `type` being a Dafny keyword. */
  datatype Notification = Notification(show: bool, message: string, kind: NotificationType)

  const HiddenNotification := Notification(false, "", Info)

  class AppStore {
    var isLoading: bool
    var notification: Notification

    constructor ()
      ensures !isLoading && notification == HiddenNotification
    {
      isLoading := false;
      notification := HiddenNotification;
    }

    method SetLoading(value: bool)
      modifies this
      ensures isLoading == value
      ensures notification == old(notification)
    {
      isLoading := value;
    }

    /** Replaces the whole notification; the type defaults to `info`. */
    method ShowNotification(message: string, kind: NotificationType := Info)
      modifies this
      ensures notification == Notification(true, message, kind)
      ensures isLoading == old(isLoading)
    {
      notification := Notification(true, message, kind);
    }

    /** Hides the notification and keeps its message and type. */
    method HideNotification()
      modifies this
      ensures !notification.show
      ensures notification.message == old(notification.message)
      ensures notification.kind == old(notification.kind)
      ensures isLoading == old(isLoading)
    {
      notification := notification.(show := false);
    }
  }
}
