/** What the redux slices share: the reply envelope of the backend, the way
    every async thunk settles, and how a rejected case turns its payload into
    an error message. */
module Thunks {
  import opened JsValues
  import opened Http

  /** `{ success, data, message }`, the envelope of every backend reply. */
  datatype Envelope<+D> = Envelope(success: bool, data: D, message: Value)

  /** The payload of a rejected thunk: an object (a reply body or an error
      response body) whose `message` is read, a plain fallback string, or
      nothing at all. */
  datatype RejectPayload = WithMessage(message: Value) | Text(text: string) | NoPayload

  /** How an async thunk settles. */
  datatype Settlement<+D> = Fulfilled(value: D) | RejectedWith(payload: RejectPayload)

  /** The thunk body shared by the slices:
      `try { r = await call; if (r.success) return r.data; return rejectWithValue(r) }
       catch (e) { return rejectWithValue(e.response?.data || fallback) }`. */
  function Settle<D>(reply: Reply<Envelope<D>>, fallback: string): (s: Settlement<D>)
    ensures s.Fulfilled? <==> reply.Returned? && reply.body.success
    ensures s.Fulfilled? ==> s.value == reply.body.data
    ensures reply.Returned? && !reply.body.success ==> s == RejectedWith(WithMessage(reply.body.message))
    ensures reply.Threw? ==> s == RejectedWith(Caught(reply.error, fallback))
  {
    match reply
    case Returned(body) => if body.success then Fulfilled(body.data) else RejectedWith(WithMessage(body.message))
    case Threw(e) => RejectedWith(Caught(e, fallback))
  }

  /** The payload of `rejectWithValue(error.response?.data || fallback)`. */
  function Caught(e: ApiError, fallback: string): RejectPayload {
    if e.data.Some? then WithMessage(Get(e.data.value, "message")) else Text(fallback)
  }

  /** `action.payload?.message || fallback`, as stored in a slice's `error`. */
  function RejectionMessage(p: RejectPayload, fallback: string): (m: string)
    ensures p.WithMessage? && p.message.Str? && p.message.s != "" ==> m == p.message.s
    ensures !(p.WithMessage? && Truthy(p.message)) ==> m == fallback
    ensures fallback != "" ==> m != ""
  {
    match p
    case WithMessage(msg) =>
      if Truthy(msg) then (TruthyTextNonEmpty(msg); ToJsString(msg)) else fallback
    case _ => fallback
  }

  /** A call that threw without a response body rejects with the fallback
      text, and the reducer, finding no `message` on a string, falls back to
      its own default. */
  lemma TransportFailureUsesDefault<D>(e: ApiError, fallback: string, default: string)
    requires e.data.None?
    ensures var s := Settle<D>(Threw(e), fallback);
            s.RejectedWith? && RejectionMessage(s.payload, default) == default
  {
  }
}
