/** What the modelled code receives from code it cannot see: a call that returns a
    value or raises, and a helper that may or may not be importable. */
module Oracles {
  import opened PyText

  /** The outcome of a call into foreign code: a value, or a raised exception with
      its message. */
  datatype Outcome<+T> = Ok(value: T) | Raises(error: string)

  /** The outcome of a route: an answer, or an `HTTPException` with its
      status code and detail. */
  datatype Http<+T> = Answer(value: T) | HttpError(status: int, detail: string)

  /** An optional collaborator (an LLM classifier, a rules function) as the caller
      sees it: not importable, raising when called, or returning a value. Whether
      it is a coroutine makes no difference to the result. */
  datatype Collaborator<+T> = Missing | Fails(error: string) | Answers(answer: T)

  /** `_call_maybe_async(fn, ...)`: the answer, or None when there is no function
      or the call raised. */
  function CallMaybeAsync<T>(fn: Collaborator<T>): (r: Option<T>)
    ensures r.Some? <==> fn.Answers?
    ensures fn.Answers? ==> r == Some(fn.answer)
  {
    match fn
    case Answers(a) => Some(a)
    case _ => None
  }
}
