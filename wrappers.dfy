/** Values shared by every module of the model: optional values and the
    outcome of one call to the tournament REST API through a service module. */
module Wrappers {

  datatype Option<+T> = None | Some(value: T)

  /** What a service call hands back to its caller in one step: the response
      body said `success: true` with `data`, the body said `success: false`
      with an `error` text ("" when the body carried none), or the call threw
      (network failure, non-2xx status) with the exception's message. */
  datatype Response<+T> = Succeeded(data: T) | Rejected(error: string) | Threw(message: string)

  /** The text a page shows for a failed call: `response.error || fallback`
      when the body reported the failure, the fixed fallback when the call threw. */
  function FailureText<T>(r: Response<T>, fallback: string): (t: string)
    requires !r.Succeeded?
    ensures r.Rejected? && r.error != "" ==> t == r.error
    ensures !(r.Rejected? && r.error != "") ==> t == fallback
  {
    if r.Rejected? && r.error != "" then r.error else fallback
  }

  /** A feedback banner: the message shown by a page after an action. */
  datatype Severity = Success | Error
  datatype Message = Message(severity: Severity, text: string)
}
