/** Values shared by the client reducer, the middleware and the ticket controllers. */
module Common {

  datatype Option<+T> = None | Some(value: T)

  /** A user document as the server loads it (password excluded) and as the client receives it. */
  datatype UserRecord = UserRecord(id: string, name: string, role: string)

  /** The `ErrorResponse` the server hands to `next`: a message and an HTTP status. */
  datatype ErrorResponse = ErrorResponse(message: string, statusCode: int)

  /** JavaScript truthiness of a string that may be `undefined`: absent and "" are falsy. */
  predicate Truthy(s: Option<string>)
  {
    s.Some? && s.value != ""
  }

  /** The fields of an Express request that the core reads or writes. */
  class Request {
    var authorization: Option<string>   // req.headers.authorization
    var routeId: Option<string>         // req.params.id
    var query: map<string, string>      // req.query
    var body: map<string, string>       // req.body
    var user: Option<UserRecord>        // req.user; null until `protect` sets it

    constructor (authorization: Option<string>, routeId: Option<string>,
                 query: map<string, string>, body: map<string, string>)
      ensures this.authorization == authorization && this.routeId == routeId
      ensures this.query == query && this.body == body && this.user == None
    {
      this.authorization := authorization;
      this.routeId := routeId;
      this.query := query;
      this.body := body;
      this.user := None;
    }
  }
}
