/** What the panel gets back from the services it calls. The Google Identity
    Toolkit endpoints and the Supabase `properties` table are not modelled;
    each call is an input saying how it came back. */
module Remote {

  datatype Option<T> = None | Some(value: T)

  /** A value raised with `throw`: an `Error` object with its message, or any
      other value. */
  datatype Thrown = ErrorObject(message: string) | OtherValue

  /** How one identity-provider `fetch` came back. */
  datatype Reply<T> =
    | Ok(body: T)                       // a 2xx response and its parsed JSON body
    | Rejected(providerMessage: string) // a non-2xx response; `error.message` of its JSON body, "" when absent
    | Failed(thrown: Thrown)            // `fetch` or the JSON parsing itself threw

  /** How one Supabase query came back: its `data`, or an `error` (returned or
      thrown, both end in the same `catch`). */
  datatype DbReply<T> = DbOk(data: T) | DbFailed

  /** What a call site raises for a reply: nothing for a 2xx answer,
      `new Error(errorData.error?.message || fallback)` for a rejection, and
      whatever was thrown otherwise. */
  function ThrownBy<T>(reply: Reply<T>, fallback: string): (t: Option<Thrown>)
    ensures t.None? <==> reply.Ok?
    ensures reply.Rejected? ==> t.Some? && t.value.ErrorObject?
    ensures reply.Rejected? && fallback != "" ==> t.Some? && t.value.message != ""
    ensures reply.Rejected? && reply.providerMessage != "" ==> t == Some(ErrorObject(reply.providerMessage))
    ensures reply.Rejected? && reply.providerMessage == "" ==> t == Some(ErrorObject(fallback))
    ensures reply.Failed? ==> t == Some(reply.thrown)
  {
    match reply
    case Ok(_) => None
    case Rejected(m) => Some(ErrorObject(if m != "" then m else fallback))
    case Failed(e) => Some(e)
  }
}
