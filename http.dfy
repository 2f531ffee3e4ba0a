/**
  The parts of an inbound Express request the gateway's middleware and
  routes read, and what the authentication backend's session lookup yields.
 */
module Http {
  import opened Js
  import opened Errors

  /** `req.method`, the path below the router's mount point, the
      `x-api-key` and `authorization` headers (`req.header(...)`),
      `req.ip` and the parsed JSON body `req.body`. `bodyError` is the
      message of the error the JSON body parser raises for a malformed or
      oversized body; when it is present, `body` is never read. */
  datatype Request = Request(
    httpMethod: string,
    path: string,
    xApiKey: Option<string>,
    authorization: Option<string>,
    ip: Option<string>,
    body: Value,
    bodyError: Option<string>)

  /** `await auth.api.getSession(...)`: a session object whose `user` field
      may be missing, no session (null), or a thrown value. */
  datatype SessionResult = Session(user: Value) | NoSession | LookupThrew(error: Thrown)
}
