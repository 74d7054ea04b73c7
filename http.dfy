/** The part of an incoming request that the web helpers touch: its session dictionary. */
module Http {
  import opened Values

  /** A session is a string-keyed dictionary that handlers update in place. */
  type SessionData = map<string, Value>

  class Request {
    var session: SessionData

    constructor (session: SessionData)
      ensures this.session == session
    {
      this.session := session;
    }
  }
}
