/**
  What the broker's handlers see of a request: the server-held session with
  its optional token record, the request context (`req.accessToken`), the
  responses they write, and a log of the outbound calls they make. Every
  call into the OAuth library, node-fetch or the session store is an
  outcome supplied by the caller.
 */
module Http {
  import opened Js

  /** A thrown JavaScript error, reduced to its message. */
  datatype Error = Error(message: string)

  /** The TypeError V8 throws when code reads the property `prop` of null. */
  function ReadOfNull(prop: string): Error {
    Error("Cannot read properties of null (reading '" + prop + "')")
  }

  /** What a call that can throw (or a promise that can reject) ends with. */
  datatype Outcome<+T> = Returned(value: T) | Threw(error: Error)

  /** The token record simple-oauth2 issues (its `token` object). */
  datatype TokenRecord = TokenRecord(accessToken: string, refreshToken: string, tokenType: string, expiresAt: int)

  /**
    A parsed JSON value from the downstream API, carried through unchanged.
    Only `null` is told apart: reading a property of it throws, while reading
    one of any other value does not.
   */
  datatype Json = Null | Value(text: string)

  /** What node-fetch resolves to: the status and the body `response.json()` parses. */
  datatype FetchResponse = FetchResponse(status: int, json: Json)

  /** `response.ok`: a 2xx status. */
  predicate IsOk(r: FetchResponse) {
    200 <= r.status <= 299
  }

  /** The JSON bodies the broker itself writes. */
  datatype Body =
    | ErrorBody(error: string)
    | MessageBody(message: string)
    | LoggedInBody(loggedIn: bool)
    | Downstream(json: Json)

  datatype Response =
    | JsonResponse(status: int, body: Body)    // res.status(n).json(…), res.json(…) with 200
    | TextResponse(status: int, text: string)  // res.status(n).send(…)
    | Redirect(location: string)               // res.redirect(…): a 302
    | Unhandled(error: Error)                  // next(err): Express's default error handler answers 500

  /** How a middleware ends: next(), next(err), or a response already written. */
  datatype Flow = Next | NextError(error: Error) | Sent(response: Response)

  /** The outbound calls a handler can make. */
  datatype Call =
    | Refresh(token: TokenRecord)                        // tokenObject.refresh()
    | GetToken(code: string, redirectUri: string)        // oauthClient.getToken({code, redirect_uri})
    | Fetch(url: string, headers: map<string, string>)  // fetch(url, {headers})
    | DestroySession                                     // req.session.destroy(…)

  /** The environment the routers read: RC_API_BASE_URL, CLIENT_ORIGIN, OAUTH_REDIRECT_URI. */
  datatype Config = Config(apiBaseUrl: string, clientOrigin: string, redirectUri: string)

  /** A session record of the store: at most one token record; `destroyed` once the store has removed it. */
  class Session {
    var token: Option<TokenRecord>
    var destroyed: bool

    constructor ()
      ensures token == None && !destroyed
    {
      token := None;
      destroyed := false;
    }
  }

  /** One incoming request: its session, the access token the guard resolved, the calls made so far. */
  class Request {
    const session: Session
    var accessToken: Option<string>
    var calls: seq<Call>

    constructor (s: Session)
      ensures session == s && accessToken == None && calls == []
    {
      session := s;
      accessToken := None;
      calls := [];
    }
  }

  /**
    express-session loading the session a request presents: a live record is
    reused; a cookie whose record was destroyed gets a new, empty session.
   */
  method Begin(s: Session) returns (req: Request)
    ensures fresh(req)
    ensures !s.destroyed ==> req.session == s
    ensures s.destroyed ==> fresh(req.session) && req.session.token == None && !req.session.destroyed
    ensures req.accessToken == None && req.calls == []
  {
    if s.destroyed {
      var s' := new Session();
      req := new Request(s');
    } else {
      req := new Request(s);
    }
  }

  /**
    req.session.destroy(cb): the store is asked to remove the record; when it
    reports no error the record and its token are gone, otherwise the stored
    record is left as it was.
   */
  method Destroy(req: Request, storeError: Option<Error>)
    modifies req, req.session
    ensures req.calls == old(req.calls) + [DestroySession]
    ensures req.accessToken == old(req.accessToken)
    ensures storeError.None? ==> req.session.destroyed && req.session.token == None
    ensures storeError.Some? ==>
              req.session.token == old(req.session.token) && req.session.destroyed == old(req.session.destroyed)
  {
    req.calls := req.calls + [DestroySession];
    if storeError.None? {
      req.session.token := None;
      req.session.destroyed := true;
    }
  }
}
