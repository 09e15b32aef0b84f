/** The single toast slot of the admin pages (`showToast`). Only the
    immediate effect is modelled: the slot becomes visible with the given
    message and kind. */
module Notifications {

  datatype ToastKind = SuccessToast | ErrorToast

  datatype Toast = Toast(visible: bool, message: string, kind: ToastKind)

  /** The initial, hidden toast. */
  const HiddenToast := Toast(false, "", SuccessToast)

  /** `showToast(message, kind)`: whatever was shown before is replaced. */
  function Show(message: string, kind: ToastKind): (t: Toast)
    ensures t.visible && t.message == message && t.kind == kind
  {
    Toast(true, message, kind)
  }
}
