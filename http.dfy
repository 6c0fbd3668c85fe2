/** The outcome of a `fetch(...)` followed by `res.json()`, as the stores observe it. */
module Http {

  /** `Ok(body)`: the response was ok and its JSON body parsed to `body`;
      `NotOk`: a response with `res.ok == false`;
      `Threw(name, message)`: `fetch` or `res.json()` threw an error with this
      `name` and `message` (a network failure, a parse error, an abort). */
  datatype Response<+T> = Ok(body: T) | NotOk | Threw(name: string, message: string)

  /** The `name` an aborted `fetch` rejects with. */
  const ABORT_ERROR: string := "AbortError"

  predicate IsAbort<T>(r: Response<T>) {
    r.Threw? && r.name == ABORT_ERROR
  }

  /** The text stored in `error`: `e?.message || 'unknown'`. */
  function ErrorText(message: string): (r: string)
    ensures r != ""
    ensures message != "" ==> r == message
    ensures message == "" ==> r == "unknown"
  {
    if message == "" then "unknown" else message
  }
}
