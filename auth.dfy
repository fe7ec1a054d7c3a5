/**
  The authentication router: the token lifecycle guard
  (refreshTokenMiddleware) and the routes /login, /logout, /status and
  /oauth_callback. Each handler reads and updates the request's session in
  place and returns the response it writes.
 */
module Auth {
  import opened Js
  import opened Http

  const LoginPath: string := "/login"
  const MissingCode: string := "Error: No authorization code provided in callback."
  const LoggedOut: string := "Logged out successfully"
  const LogoutFailed: string := "Could not log out session."

  /**
    Whether the guard's try block throws for a stored token: the expiry check
    itself throws, or the token is expired and the refresh rejects.
   */
  predicate GuardThrows(expired: Outcome<bool>, refreshed: Outcome<TokenRecord>) {
    expired.Threw? || (expired == Returned(true) && refreshed.Threw?)
  }

  /**
    refreshTokenMiddleware. `expired` is what createToken(…).expired() gives
    for the stored token, `refreshed` what tokenObject.refresh() settles
    with, `storeError` what the session store reports to destroy's callback.
   */
  method RefreshTokenMiddleware(req: Request, expired: Outcome<bool>, refreshed: Outcome<TokenRecord>,
                                storeError: Option<Error>) returns (flow: Flow)
    requires !req.session.destroyed
    modifies req, req.session
    // No token: pass through, touching nothing.
    ensures old(req.session.token).None? ==>
              flow == Next && req.session.token == None && !req.session.destroyed
              && req.accessToken == old(req.accessToken) && req.calls == old(req.calls)
    // A token that is not expired: kept, and its access token passed on.
    ensures old(req.session.token).Some? && expired == Returned(false) ==>
              flow == Next && req.session.token == old(req.session.token) && !req.session.destroyed
              && req.accessToken == Some(old(req.session.token).value.accessToken) && req.calls == old(req.calls)
    // An expired token refreshed: replaced whole, and the new access token passed on.
    ensures old(req.session.token).Some? && expired == Returned(true) && refreshed.Returned? ==>
              flow == Next && req.session.token == Some(refreshed.value) && !req.session.destroyed
              && req.accessToken == Some(refreshed.value.accessToken)
              && req.calls == old(req.calls) + [Refresh(old(req.session.token).value)]
    // The guard lets the request through exactly when nothing threw, and then a token is still there iff one was.
    ensures flow == Next <==> old(req.session.token).None? || !GuardThrows(expired, refreshed)
    ensures flow == Next ==> !req.session.destroyed && req.session.token.Some? == old(req.session.token).Some?
    // Anything thrown: the session is destroyed, then a redirect to /login or next(err).
    ensures old(req.session.token).Some? && GuardThrows(expired, refreshed) ==>
              req.accessToken == old(req.accessToken)
              && req.calls == old(req.calls)
                              + (if expired.Threw? then [] else [Refresh(old(req.session.token).value)])
                              + [DestroySession]
              && (storeError.None? ==>
                    flow == Sent(Redirect(LoginPath)) && req.session.destroyed && req.session.token == None)
              && (storeError.Some? ==>
                    flow == NextError(storeError.value)
                    && req.session.token == old(req.session.token) && !req.session.destroyed)
  {
    if req.session.token.None? {
      return Next;
    }
    var token := req.session.token.value;
    var failed := false;
    match expired {
      case Threw(_) =>
        failed := true;
      case Returned(isExpired) =>
        if isExpired {
          req.calls := req.calls + [Refresh(token)];
          match refreshed {
            case Threw(_) =>
              failed := true;
            case Returned(t) =>
              req.session.token := Some(t);
          }
        }
    }
    if !failed {
      req.accessToken := Some(req.session.token.value.accessToken);
      return Next;
    }
    Destroy(req, storeError);
    if storeError.Some? {
      return NextError(storeError.value);
    }
    return Sent(Redirect(LoginPath));
  }

  /**
    GET /login: a redirect to the authorization server. `authorizeUrl` is
    oauthClient.authorizeURL applied to the redirect URI.
   */
  method Login(cfg: Config, authorizeUrl: string -> string) returns (resp: Response)
    ensures resp.Redirect? && resp.location == authorizeUrl(cfg.redirectUri)
  {
    resp := Redirect(authorizeUrl(cfg.redirectUri));
  }

  /** GET /logout: destroy the session; 200 when the store agrees, 500 when it reports an error. */
  method Logout(req: Request, storeError: Option<Error>) returns (resp: Response)
    modifies req, req.session
    ensures req.calls == old(req.calls) + [DestroySession] && req.accessToken == old(req.accessToken)
    ensures storeError.None? ==>
              resp == JsonResponse(200, MessageBody(LoggedOut))
              && req.session.destroyed && req.session.token == None
    ensures storeError.Some? ==>
              resp == JsonResponse(500, ErrorBody(LogoutFailed))
              && req.session.token == old(req.session.token) && req.session.destroyed == old(req.session.destroyed)
  {
    Destroy(req, storeError);
    if storeError.Some? {
      return JsonResponse(500, ErrorBody(LogoutFailed));
    }
    resp := JsonResponse(200, MessageBody(LoggedOut));
  }

  /**
    GET /status: the guard runs first, with its effects on the session and
    the request; then loggedIn says whether the session still holds a token.
   */
  method Status(req: Request, expired: Outcome<bool>, refreshed: Outcome<TokenRecord>,
                storeError: Option<Error>) returns (resp: Response)
    requires !req.session.destroyed
    modifies req, req.session
    ensures resp.JsonResponse? ==> resp == JsonResponse(200, LoggedInBody(req.session.token.Some?))
    // No token: loggedIn false, and nothing changes.
    ensures old(req.session.token).None? ==>
              resp == JsonResponse(200, LoggedInBody(false))
              && req.session.token == None && !req.session.destroyed
              && req.accessToken == old(req.accessToken) && req.calls == old(req.calls)
    // A token that is not expired: loggedIn true, the token kept and its access token set.
    ensures old(req.session.token).Some? && expired == Returned(false) ==>
              resp == JsonResponse(200, LoggedInBody(true))
              && req.session.token == old(req.session.token) && !req.session.destroyed
              && req.accessToken == Some(old(req.session.token).value.accessToken) && req.calls == old(req.calls)
    // An expired token refreshed: loggedIn true, with the refreshed token stored and its access token set.
    ensures old(req.session.token).Some? && expired == Returned(true) && refreshed.Returned? ==>
              resp == JsonResponse(200, LoggedInBody(true))
              && req.session.token == Some(refreshed.value) && !req.session.destroyed
              && req.accessToken == Some(refreshed.value.accessToken)
              && req.calls == old(req.calls) + [Refresh(old(req.session.token).value)]
    // The guard threw: the destroy, then its redirect or the unhandled store error in place of an answer.
    ensures old(req.session.token).Some? && GuardThrows(expired, refreshed) ==>
              req.accessToken == old(req.accessToken)
              && req.calls == old(req.calls)
                              + (if expired.Threw? then [] else [Refresh(old(req.session.token).value)])
                              + [DestroySession]
              && (storeError.None? ==>
                    resp == Redirect(LoginPath) && req.session.destroyed && req.session.token == None)
              && (storeError.Some? ==>
                    resp == Unhandled(storeError.value)
                    && req.session.token == old(req.session.token) && !req.session.destroyed)
  {
    var flow := RefreshTokenMiddleware(req, expired, refreshed, storeError);
    match flow {
      case Next =>
        resp := JsonResponse(200, LoggedInBody(!req.session.destroyed && req.session.token.Some?));
      case NextError(e) =>
        resp := Unhandled(e);
      case Sent(r) =>
        resp := r;
    }
  }

  /**
    GET /oauth_callback: without a truthy `code` a 400 and nothing else;
    otherwise one getToken call with the configured redirect URI, whose token
    is stored (and the browser sent to the client origin) or whose failure
    gives a 500 that leaves the session as it was.
   */
  method OAuthCallback(cfg: Config, req: Request, code: Option<string>, issued: Outcome<TokenRecord>)
    returns (resp: Response)
    requires !req.session.destroyed
    modifies req, req.session
    ensures req.accessToken == old(req.accessToken) && !req.session.destroyed
    ensures !Truthy(code) ==>
              resp == TextResponse(400, MissingCode)
              && req.session.token == old(req.session.token) && req.calls == old(req.calls)
    ensures Truthy(code) ==> req.calls == old(req.calls) + [GetToken(code.value, cfg.redirectUri)]
    ensures Truthy(code) && issued.Returned? ==>
              resp == Redirect(cfg.clientOrigin) && req.session.token == Some(issued.value)
    ensures Truthy(code) && issued.Threw? ==>
              resp == TextResponse(500, "Auth failed: " + issued.error.message)
              && req.session.token == old(req.session.token)
  {
    if !Truthy(code) {
      return TextResponse(400, MissingCode);
    }
    req.calls := req.calls + [GetToken(code.value, cfg.redirectUri)];
    match issued
    case Returned(t) =>
      req.session.token := Some(t);
      resp := Redirect(cfg.clientOrigin);
    case Threw(e) =>
      resp := TextResponse(500, "Auth failed: " + e.message);
  }

  /**
    Two logouts in a row on one browser session, then /status: while the
    store accepts both destroys, both answer 200 and /status reports
    loggedIn: false without any call to the authorization server.
   */
  method LogoutTwiceThenStatus(s: Session, expired: Outcome<bool>, refreshed: Outcome<TokenRecord>)
    returns (first: Response, second: Response, status: Response)
    modifies s
    ensures first == JsonResponse(200, MessageBody(LoggedOut))
    ensures second == JsonResponse(200, MessageBody(LoggedOut))
    ensures status == JsonResponse(200, LoggedInBody(false))
  {
    var r1 := Begin(s);
    first := Logout(r1, None);
    var r2 := Begin(s);
    second := Logout(r2, None);
    var r3 := Begin(s);
    status := Status(r3, expired, refreshed, None);
  }
}
