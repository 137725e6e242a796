/** What a page shows or where it sends the user after an action. */
module Ui {
  /** `toast.success`, `toast.error`, `toast.warn`/`toast.warning` and `toast.info`, with their text. */
  datatype Notice = Success(text: string) | Failure(text: string) | Warning(text: string) | Info(text: string)

  /** What a route gate returns: its children, or `<Navigate to=... replace />`. */
  datatype Decision = Render | Redirect(to: string)
}
