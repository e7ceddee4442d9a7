/** Small value types shared by the three pages. */
module Common {

  /** `null`/`undefined` versus a present value. */
  datatype Option<+T> = None | Some(value: T)

  /** What a call to a remote edge function yields: the `data` it returned, or an `error`. */
  datatype Reply<+T> = Ok(value: T) | Err

  /** Where a handler leaves the user; navigation and toasts are reduced to this tag. */
  datatype Outcome =
    | NoOp                  // the handler returned before doing anything
    | RedirectSubscription  // quota exhausted: navigate("/subscription")
    | RedirectLogin         // no session: navigate("/login")
    | Done                  // the handler ran to the end without an error toast
    | Failed                // an error was caught and shown as a destructive toast

  /** A remaining-quota figure as the pages display it: "Unlimited" or a number. */
  datatype Remaining = Unlimited | Left(n: nat)

  /** `Math.max(0, x)` on integers. */
  function Max0(x: int): (m: nat)
    ensures m >= x && (m == 0 || m == x)
  {
    if x > 0 then x else 0
  }
}
