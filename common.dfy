/** Shared vocabulary of the Planora model: optional values, HTTP replies and
    JavaScript's notion of a "truthy" string. */
module Common {

  datatype Option<+T> = None | Some(value: T)

  /** A document id; every collection hands out a fresh one on insert. */
  type Id = nat

  /** A route handler's JSON reply: a 200 carrying a body, or an error status
      with the `{ error }` message the handler writes. */
  datatype Response<+B> = Ok(body: B) | Fail(code: int, error: string)
  {
    function Status(): (c: int)
      ensures Ok? ==> c == 200
      ensures Fail? ==> c == code
    {
      if Ok? then 200 else code
    }
  }

  /** What a page's `fetch` comes back with: a thrown network error, or a
      reply whose `ok` flag says whether the status was 2xx, with its parsed
      body. */
  datatype Fetched<+T> = Threw | Replied(ok: bool, body: T)

  /** A possibly missing JSON string field or header is truthy when it is
      present and not the empty string. */
  predicate Truthy(s: Option<string>) {
    s.Some? && s.value != ""
  }

  /** The JavaScript expression `s || fallback` for an optional string. */
  function OrElse(s: Option<string>, fallback: string): (r: string)
    ensures Truthy(s) ==> r == s.value
    ensures !Truthy(s) ==> r == fallback
    ensures fallback != "" ==> r != ""
  {
    if Truthy(s) then s.value else fallback
  }
}
