/**
 * What the client components show the user: a toast with a title, a
 * description and a destructive variant for errors, and the rule by which
 * a caught error becomes a description.
 */
module Toasts {
  import opened Wrappers

  datatype Toast = Toast(title: string, description: string, destructive: bool)

  /** A value caught by a `catch`: its `message` when it is an `Error` instance, `None` otherwise. */
  datatype Fault = Fault(errorMessage: Option<string>)

  /** The red `Errore` toast every component uses. */
  function ErrorToast(description: string): (t: Toast)
    ensures t.destructive && t.description == description
  {
    Toast("Errore", description, true)
  }

  /**
   * `error instanceof Error ? error.message : fallback`: an `Error` with an
   * empty message still shows its (empty) message.
   */
  function Shown(f: Fault, fallback: string): (s: string)
    ensures f.errorMessage.Some? ==> s == f.errorMessage.value
    ensures f.errorMessage.None? ==> s == fallback
  {
    f.errorMessage.GetOr(fallback)
  }
}
