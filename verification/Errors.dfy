/** The error values that flow through a reconcile pass.

    A plugin may fail with a RetryError, which asks the controller to try the profile again
    without changing its state.  Chains and handlers wrap and join errors, and a RetryError is
    still found below any number of such layers. */
module Errors {

  datatype Option<+T> = None | Some(value: T)

  datatype Result<+T> = Ok(value: T) | Err(error: Error)

  datatype Reason =
    | UnknownLabel
    | MissingProfile
    | MissingSchedule
    | MissingTriggers
    | FailedChecks
    | FailedExpression
    | UnknownInstance
    | BadExpression
    | BadData
    | EnterFailed
    | NotifyFailed
    | CheckFailed
    | TriggerFailed
    | PluginFailed

  datatype Error =
    | Plain(reason: Reason)
    | Retry
    | Wrapped(context: Reason, cause: Error)
    | Joined(causes: seq<Error>)

  /** Whether a RetryError is found anywhere below the wrapping and joining layers. */
  predicate IsRetry(e: Error)
  {
    match e
    case Plain(_) => false
    case Retry => true
    case Wrapped(_, cause) => IsRetry(cause)
    case Joined(causes) => exists c | c in causes :: IsRetry(c)
  }

  /** An error below layers of context. */
  function Layered(contexts: seq<Reason>, e: Error): Error
  {
    if contexts == [] then e else Wrapped(contexts[0], Layered(contexts[1..], e))
  }

  /** A RetryError is found below any number of layers, and beside any other errors it is joined with; no
      other plain error passes for one. */
  lemma {:induction false} RetryIsFound(contexts: seq<Reason>, e: Error)
    ensures IsRetry(Layered(contexts, Retry))
    ensures e.Plain? ==> !IsRetry(Layered(contexts, e))
    ensures e.Joined? ==> (IsRetry(Layered(contexts, e)) <==> exists c :: c in e.causes && IsRetry(c))
  {
    if contexts != [] {
      RetryIsFound(contexts[1..], e);
    }
  }

  lemma PlainIsNoRetry(errors: seq<Error>)
    requires forall k :: 0 <= k < |errors| ==> errors[k].Plain?
    ensures !IsRetry(Joined(errors))
  {
    forall c | c in errors ensures !IsRetry(c) {
      var k :| 0 <= k < |errors| && errors[k] == c;
    }
  }
}
