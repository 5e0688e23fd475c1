/** What an Express route handler sends back to its client. */
module Express {

  /** One reply a handler issues: the HTTP status and the `msg` of the JSON body.
      `res.json(...)` without `res.status(...)` replies with status 200. */
  datatype Reply = Reply(status: int, msg: string)

  function Ok(msg: string): Reply
  {
    Reply(200, msg)
  }

  /** The message of the TypeError that reading a property of `undefined` raises
      (`rows[0].name` when `rows` is empty). */
  function ReadOfUndefined(prop: string): string
  {
    "Cannot read properties of undefined (reading '" + prop + "')"
  }

  /** The database's message when a parameter does not parse as the type it is
      cast to (`''::uuid`, `'0'::timestamptz`). */
  const InvalidInputSyntax: string := "invalid input syntax"
}
