// How values, inter-canister calls and endpoints end, in the canisters' terms:
// an optional value (`x.Ok?.e8s` may be `undefined`), the result of an awaited
// `.call()` (the callee's reply or the call's rejection message), and an
// endpoint's outcome (`ic.trap`, which rolls the message back, or a returned
// `Result.Ok` / `Result.Err`).
module Outcomes {

  datatype Option<T> = None | Some(value: T) {

    /** The wrapped value, or `default` when there is none. */
    function GetOr(default: T): (r: T)
      ensures Some? ==> r == value
      ensures None? ==> r == default
    {
      match this
      case Some(v) => v
      case None => default
    }
  }

  datatype CallResult<T> = CallOk(value: T) | CallErr(message: string) {

    /** The source's `(await ….call()).Ok`: the reply when the call
        succeeded, `undefined` when it was rejected. */
    function OkField(): (r: Option<T>)
      ensures r.Some? <==> CallOk?
      ensures CallOk? ==> r.value == value
    {
      match this
      case CallOk(v) => Some(v)
      case CallErr(_) => None
    }

    /** Returns the call's result as the endpoint's own: `return await ….call()`. */
    function ToOutcome(): (r: Outcome<T>)
      ensures !r.Trap?
      ensures r.Ok? <==> CallOk?
      ensures CallOk? ==> r.value == value
      ensures CallErr? ==> r.error == message
    {
      match this
      case CallOk(v) => Ok(v)
      case CallErr(e) => Err(e)
    }
  }

  datatype Outcome<T> = Trap(reason: string) | Ok(value: T) | Err(error: string) {

    /** Re-labels the value of an `Ok`, keeping traps and errors as they are. */
    function Map<U>(f: T -> U): (r: Outcome<U>)
      ensures r.Trap? <==> Trap?
      ensures r.Ok? <==> Ok?
      ensures Trap? ==> r.reason == reason
      ensures Err? ==> r.error == error
      ensures Ok? ==> r.value == f(value)
    {
      match this
      case Trap(m) => Trap(m)
      case Ok(v) => Ok(f(v))
      case Err(e) => Err(e)
    }
  }
}
