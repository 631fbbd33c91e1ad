/**
 * Express plumbing as the handlers use it: replies, the request object the
 * gates write into, and router tables listing which gates run before a
 * route's own handler.
 */
module Http {
  import opened Js
  import opened Jwt
  import opened Store

  /** `res.status(status).json({ message })`. */
  datatype Reply = Reply(status: int, message: string)

  /** What the authentication routes send back. `Silent` is a request that
      never gets a reply (a rejection no code catches). */
  datatype Response =
    | Rejected(status: int, message: string)
    | LoggedIn(token: Token, user: Row)
    | Profile(user: Row)
    | Silent

  /** What a handler does: the statement it issues, if it gets that far, and its reply. */
  datatype Effect = Effect(statement: Option<Statement>, reply: Reply)

  /** What a route sends: a JSON object, the result rows, or a status with a message. */
  datatype Answer = Json(body: Object) | Listing(rows: seq<Row>) | Status(reply: Reply)

  /** A data route's run: the statements it issued, in order, and its answer. */
  datatype Served = Served(statements: seq<Statement>, answer: Answer)

  datatype Verb = Get | Post | Put | Delete

  /** The gate functions the routers put in front of handlers. */
  datatype Guard = AdminGate | InstructorGate | StudentGate | InstructorMiddleware

  /** `router.<verb>(path, ...guards, handler)`. */
  datatype Route = Route(verb: Verb, path: string, guards: seq<Guard>)

  /** The Express request: its header and body are fixed, and the gates
      attach the caller's identity to it. `None` is a property never set. */
  class Request {
    const authorization: Option<string>
    const body: Object
    const params: Object
    var user: Option<Claims>
    var adminId: Option<Value>
    var studentId: Option<Value>

    constructor (authorization: Option<string>, body: Object, params: Object)
      ensures this.authorization == authorization && this.body == body && this.params == params
      ensures user == None && adminId == None && studentId == None
    {
      this.authorization := authorization;
      this.body := body;
      this.params := params;
      user := None;
      adminId := None;
      studentId := None;
    }
  }
}
