/** The request/response vocabulary of the route handlers: JSON body fields
    with JavaScript's notions of "falsy" and "nullish", replies with a status
    code and a JSON body, and the session lookup. */
module Http {
  import opened Wrappers

  /** A string-valued field of a parsed JSON body: missing (`undefined`),
      `null`, or a string. */
  datatype Field = Absent | Null | Text(s: string)

  /** `!!f`: a string field is truthy when present and non-empty. */
  predicate Truthy(f: Field) {
    f.Text? && f.s != ""
  }

  /** `f == null`: the operand of `??` is replaced exactly in these cases. */
  predicate Nullish(f: Field) {
    f.Absent? || f.Null?
  }

  /** `f ?? fallback`. */
  function OrElse(f: Field, fallback: string): string {
    if f.Text? then f.s else fallback
  }

  /** An optional string column written from a body field: `undefined`
      leaves the column at its default (null), `null` writes null. */
  function OptionalColumn(f: Field): Option<string> {
    if f.Text? then Some(f.s) else None
  }

  /** `f ? new Date(f) : null`, keeping the date text as given. */
  function DateOrNull(f: Field): (r: Option<string>)
    ensures r.None? <==> !Truthy(f)
    ensures r.Some? ==> f == Text(r.value)
  {
    if Truthy(f) then Some(f.s) else None
  }

  datatype Body<T> = ErrorBody(error: string) | Json(value: T)

  /** `NextResponse.json(body, { status })`. */
  datatype Reply<T> = Reply(status: nat, body: Body<T>)

  function Unauthorized<T>(): Reply<T> {
    Reply(401, ErrorBody("Unauthorized"))
  }

  /** `session?.user?.id` when it is truthy. The session is the id the
      session lookup produced, `None` when there is no session or no user. */
  function SessionUserId(session: Option<string>): (r: Option<string>)
    ensures r.Some? <==> session.Some? && session.value != ""
    ensures r.Some? ==> r.value == session.value
  {
    if session.Some? && session.value != "" then session else None
  }
}
