/** Toast notifications, the only user-visible feedback of the handlers. */
module Toasts {

  /** A toast: title, description, and whether it uses the `destructive` variant. */
  datatype Toast = Toast(title: string, description: string, destructive: bool)

  /** A toast with the `destructive` variant and the title 'Error'. */
  function ErrorToast(description: string): Toast {
    Toast("Error", description, true)
  }
}
