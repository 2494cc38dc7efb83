/** The notification records shared by the query layer and the mock handler. */
module NotificationTypes {
  import opened Wrappers

  /** `NotificationType`: 'info' | 'success' | 'warning' | 'error'. */
  datatype NotificationType = InfoType | SuccessType | WarningType | ErrorType

  /** The wire name of a type. */
  function TypeName(t: NotificationType): (s: string)
    ensures s != ""
  {
    match t
    case InfoType => "info"
    case SuccessType => "success"
    case WarningType => "warning"
    case ErrorType => "error"
  }

  /** Distinct types have distinct wire names. */
  lemma TypeNameInjective(a: NotificationType, b: NotificationType)
    requires TypeName(a) == TypeName(b)
    ensures a == b
  {
  }

  /** `Notification`; `createdAt` is the instant in milliseconds its ISO text denotes. */
  datatype Notification = Notification(
    id: string,
    title: string,
    message: string,
    kind: NotificationType,
    read: bool,
    createdAt: int,
    actionUrl: Option<string>)

  /** `NotificationsFilters`; numbers are integers here. */
  datatype NotificationsFilters = NotificationsFilters(
    read: Option<bool>,
    kind: Option<NotificationType>,
    page: Option<int>,
    limit: Option<int>)
}
