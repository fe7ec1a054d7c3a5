/**
  The order in which the application runs its routers: the authentication
  router is mounted first, and its last layer applies the token lifecycle
  guard to every request it does not answer itself, so each /api request is
  guarded before the proxy handlers see it.
 */
module Api {
  import opened Js
  import opened Http
  import Auth
  import Rc

  /** The outcomes the guard meets for one request. */
  datatype GuardInputs = GuardInputs(expired: Outcome<bool>, refreshed: Outcome<TokenRecord>, storeError: Option<Error>)

  /** A guard outcome that ends the request: the redirect it wrote, or Express's answer to next(err). */
  function Stopped(flow: Http.Flow): Response
    requires flow != Next
  {
    if flow.Sent? then flow.response else Unhandled(flow.error)
  }

  /** The token a guard that did not throw leaves in the session: the refreshed one when it refreshed. */
  function PassedToken(t: TokenRecord, g: GuardInputs): TokenRecord {
    if g.expired == Returned(true) && g.refreshed.Returned? then g.refreshed.value else t
  }

  /** The calls a guard that did not throw made: one refresh when the token had expired. */
  function PassedCalls(t: TokenRecord, g: GuardInputs): seq<Call> {
    if g.expired == Returned(true) then [Refresh(t)] else []
  }

  /** GET /api/profile: the guard, then the /profile handler when the guard passes the request on. */
  method ApiProfile(cfg: Config, req: Request, g: GuardInputs, fetched: Outcome<FetchResponse>,
                    storeError: Option<Error>) returns (resp: Response)
    requires !req.session.destroyed && req.accessToken == None
    modifies req, req.session
    // No session token: 401 with neither a refresh nor a downstream call.
    ensures old(req.session.token).None? ==>
              resp == JsonResponse(401, ErrorBody(Rc.NotAuthenticated)) && req.calls == old(req.calls)
              && req.session.token == None && !req.session.destroyed
    // A guard failure ends the request after the destroy, before any downstream call.
    ensures old(req.session.token).Some? && Auth.GuardThrows(g.expired, g.refreshed) ==>
              resp == (if g.storeError.None? then Redirect(Auth.LoginPath) else Unhandled(g.storeError.value))
              && req.calls == old(req.calls)
                              + (if g.expired.Threw? then [] else [Refresh(old(req.session.token).value)])
                              + [DestroySession]
              && (req.session.destroyed <==> g.storeError.None?)
              && req.session.token == (if g.storeError.None? then None else old(req.session.token))
    // A guard that passes: /profile runs with the guard's access token, the refreshed one when it refreshed.
    ensures old(req.session.token).Some? && !Auth.GuardThrows(g.expired, g.refreshed) ==>
              var t := PassedToken(old(req.session.token).value, g);
              var before := old(req.calls) + PassedCalls(old(req.session.token).value, g);
              var call := Fetch(Rc.ProfilesMeUrl(cfg.apiBaseUrl), Rc.MakeFetchHeaders(t.accessToken));
              var o := Rc.AfterLog(Rc.ReadResponse(fetched), "name");
              if t.accessToken == "" then
                resp == JsonResponse(401, ErrorBody(Rc.NotAuthenticated)) && req.calls == before
                && req.session.token == Some(t) && !req.session.destroyed
              else if o.Returned? then
                resp == JsonResponse(200, Downstream(o.value)) && req.calls == before + [call]
                && req.session.token == Some(t) && !req.session.destroyed
              else if Rc.IsAuthFailure(o.error) then
                resp == JsonResponse(401, ErrorBody(Rc.ProfileAuthFailed)) && req.calls == before + [call, DestroySession]
                && (req.session.destroyed <==> storeError.None?)
                && req.session.token == (if storeError.None? then None else Some(t))
              else
                resp == JsonResponse(500, ErrorBody(Rc.ProfileFailed)) && req.calls == before + [call]
                && req.session.token == Some(t) && !req.session.destroyed
    // An expired token refreshed, then an ok downstream answer: one refresh, one fetch, the body unchanged.
    ensures old(req.session.token).Some? && g.expired == Returned(true) && g.refreshed.Returned?
            && g.refreshed.value.accessToken != "" && fetched.Returned? && IsOk(fetched.value)
            && fetched.value.json.Value? ==>
              resp == JsonResponse(200, Downstream(fetched.value.json))
              && req.session.token == Some(g.refreshed.value)
              && req.calls == old(req.calls)
                              + [Refresh(old(req.session.token).value),
                                 Fetch(Rc.ProfilesMeUrl(cfg.apiBaseUrl), Rc.MakeFetchHeaders(g.refreshed.value.accessToken))]
    // A live token the downstream API rejects with 401: the session is destroyed and the answer is 401.
    ensures old(req.session.token).Some? && g.expired == Returned(false) && old(req.session.token).value.accessToken != ""
            && fetched.Returned? && fetched.value.status == 401 && storeError.None? ==>
              resp == JsonResponse(401, ErrorBody(Rc.ProfileAuthFailed))
              && req.session.destroyed && req.session.token == None
  {
    var flow := Auth.RefreshTokenMiddleware(req, g.expired, g.refreshed, g.storeError);
    if flow != Next {
      return Stopped(flow);
    }
    if old(req.session.token).Some? {
      var t := PassedToken(old(req.session.token).value, g);
      assert !Auth.GuardThrows(g.expired, g.refreshed);
      assert g.expired.Returned?;
      if g.expired.value {
        assert g.expired == Returned(true);
        assert g.refreshed.Returned?;
      } else {
        assert g.expired == Returned(false);
      }
      assert req.session.token == Some(t) && req.accessToken == Some(t.accessToken);
      assert req.calls == old(req.calls) + PassedCalls(old(req.session.token).value, g);
    }
    resp := Rc.Profile(cfg, req, fetched, storeError);
    if fetched.Returned? && fetched.value.status == 401 {
      Rc.FetchFailureIsAuthIff401(401);
    }
  }

  /** GET /api/batches/:batchId/profiles: the guard, then the batch handler. */
  method ApiBatchProfiles(cfg: Config, req: Request, g: GuardInputs, batchParam: string,
                          limitQuery: Option<string>, fetched: Outcome<FetchResponse>) returns (resp: Response)
    requires !req.session.destroyed && req.accessToken == None
    modifies req, req.session
    // No session token: 401, whatever the batch id, with no call at all.
    ensures old(req.session.token).None? ==>
              resp == JsonResponse(401, ErrorBody(Rc.NotAuthenticated)) && req.calls == old(req.calls)
              && req.session.token == None
    // Exactly a failing guard whose destroy the store accepts destroys the session; the downstream outcome never does.
    ensures req.session.destroyed <==>
              old(req.session.token).Some? && Auth.GuardThrows(g.expired, g.refreshed) && g.storeError.None?
    // A guard failure ends the request after the destroy, before any downstream call.
    ensures old(req.session.token).Some? && Auth.GuardThrows(g.expired, g.refreshed) ==>
              resp == (if g.storeError.None? then Redirect(Auth.LoginPath) else Unhandled(g.storeError.value))
              && req.calls == old(req.calls)
                              + (if g.expired.Threw? then [] else [Refresh(old(req.session.token).value)])
                              + [DestroySession]
              && req.session.token == (if g.storeError.None? then None else old(req.session.token))
    // A guard that passes: the batch route runs with the guard's access token, the refreshed one when it refreshed.
    ensures old(req.session.token).Some? && !Auth.GuardThrows(g.expired, g.refreshed) ==>
              var t := PassedToken(old(req.session.token).value, g);
              var before := old(req.calls) + PassedCalls(old(req.session.token).value, g);
              var o := Rc.AfterLog(Rc.ReadResponse(fetched), "length");
              req.session.token == Some(t)
              && if t.accessToken == "" then
                   resp == JsonResponse(401, ErrorBody(Rc.NotAuthenticated)) && req.calls == before
                 else if Rc.BatchIdOf(batchParam).None? then
                   resp == JsonResponse(400, ErrorBody(Rc.InvalidBatchId)) && req.calls == before
                 else
                   var batchId := Rc.BatchIdOf(batchParam).value;
                   req.calls == before + [Fetch(Rc.BatchProfilesUrl(cfg.apiBaseUrl, batchId, Rc.LimitOf(limitQuery)),
                                                Rc.MakeFetchHeaders(t.accessToken))]
                   && resp == if o.Returned? then JsonResponse(200, Downstream(o.value))
                              else if Rc.IsAuthFailure(o.error) then JsonResponse(401, ErrorBody(Rc.BatchAuthFailed))
                              else JsonResponse(500, ErrorBody(Rc.BatchFailed(batchId, o.error)))
    // A valid token and a downstream 401: 401, session kept.
    ensures old(req.session.token).Some? && g.expired == Returned(false) && old(req.session.token).value.accessToken != ""
            && Rc.BatchIdOf(batchParam).Some? && fetched.Returned? && fetched.value.status == 401 ==>
              resp == JsonResponse(401, ErrorBody(Rc.BatchAuthFailed))
              && req.session.token == old(req.session.token) && !req.session.destroyed
  {
    var flow := Auth.RefreshTokenMiddleware(req, g.expired, g.refreshed, g.storeError);
    if flow != Next {
      return Stopped(flow);
    }
    if old(req.session.token).Some? {
      var t := PassedToken(old(req.session.token).value, g);
      assert !Auth.GuardThrows(g.expired, g.refreshed);
      assert g.expired.Returned?;
      if g.expired.value {
        assert g.expired == Returned(true);
        assert g.refreshed.Returned?;
      } else {
        assert g.expired == Returned(false);
      }
      assert req.session.token == Some(t) && req.accessToken == Some(t.accessToken);
      assert req.calls == old(req.calls) + PassedCalls(old(req.session.token).value, g);
    }
    resp := Rc.BatchProfiles(cfg, req, batchParam, limitQuery, fetched);
    if fetched.Returned? && fetched.value.status == 401 {
      Rc.FetchFailureIsAuthIff401(401);
    }
  }
}
