/**
 * Observable side effects shared by the pages of the identity-verification
 * front end: notification toasts and router navigations, recorded in an
 * append-only log instead of being delivered.
 */
module Effects {

  datatype Option<T> = None | Some(value: T)

  /** The `variant` of a toast: plain, or "destructive" for validation errors. */
  datatype Variant = Plain | Destructive

  datatype Toast = Toast(title: string, description: string, variant: Variant)

  /** One recorded side effect, in the order the page performed it. */
  datatype Effect = ShowToast(toast: Toast) | Navigate(path: string)

  /** Outcome of a form validator: go ahead, or stop after showing an error toast. */
  datatype Verdict = Accept | Reject(toast: Toast)

  /** The route every successful flow lands on. */
  const DashboardPath: string := "/dashboard"

  /** The toasts of a log, in order, with the navigations dropped. */
  function Toasts(log: seq<Effect>): (ts: seq<Toast>)
    ensures |ts| <= |log|
    ensures forall t :: t in ts <==> ShowToast(t) in log
  {
    if log == [] then []
    else (if log[0].ShowToast? then [log[0].toast] else []) + Toasts(log[1..])
  }

  /** Appending one effect to the log adds its toast, if it is one, at the end. */
  lemma {:induction false} ToastsAppend(log: seq<Effect>, e: Effect)
    ensures Toasts(log + [e]) == Toasts(log) + (if e.ShowToast? then [e.toast] else [])
  {
    if log != [] {
      assert (log + [e])[1..] == log[1..] + [e];
      ToastsAppend(log[1..], e);
    }
  }
}
