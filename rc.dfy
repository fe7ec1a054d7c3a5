/**
  The authenticated proxy: request headers, downstream URLs, how a
  downstream answer becomes a value or an error, and the /profile and
  /batches/:batchId/profiles handlers with their batchId and limit parsing
  and their classification of errors by the text '401'.
 */
module Rc {
  import opened Js
  import opened Http

  const NotAuthenticated: string := "Not authenticated"
  const ProfileAuthFailed: string := "Authentication failed or token expired"
  const ProfileFailed: string := "Could not load profile data"
  const InvalidBatchId: string := "Invalid Batch ID provided in URL."
  const BatchAuthFailed: string := "Authentication failed or token invalid for fetching profiles."
  const DefaultLimit: int := 50

  /** What `return reject(…)` throws: `reject` is not defined in the module. */
  const RejectIsNotDefined: Error := Error("reject is not defined")

  // ---------------------------------------------------------------------------
  // Headers, URLs and messages

  /** makeFetchHeaders */
  function MakeFetchHeaders(token: string): (h: map<string, string>)
    ensures h.Keys == {"Authorization", "Accept"}
    ensures h["Accept"] == "application/json"
  {
    map["Authorization" := "Bearer " + token, "Accept" := "application/json"]
  }

  /** The credential a receiver reads from an Authorization header of the Bearer scheme. */
  function BearerCredential(h: map<string, string>): Option<string> {
    if "Authorization" in h && |h["Authorization"]| >= 7 && h["Authorization"][..7] == "Bearer "
    then Some(h["Authorization"][7..])
    else None
  }

  /** The headers carry exactly the token they were made from. */
  lemma HeadersCarryToken(token: string)
    ensures BearerCredential(MakeFetchHeaders(token)) == Some(token)
  {
    var a := "Bearer " + token;
    assert a[..7] == "Bearer ";
    assert a[7..] == token;
  }

  function ProfilesMeUrl(base: string): string {
    base + "/profiles/me"
  }

  const BatchQuery: string := "/profiles?batch_id="

  function BatchProfilesUrl(base: string, batchId: int, limit: int): string {
    base + BatchQuery + IntToString(batchId) + "&limit=" + IntToString(limit)
  }

  /**
    The batch URL carries both numbers recoverably: parseInt on the text
    after "batch_id=" reads the batch id (it stops at '&'), and on the text
    after "&limit=" reads the limit.
   */
  lemma BatchUrlCarriesArguments(base: string, batchId: int, limit: int)
    ensures var u := BatchProfilesUrl(base, batchId, limit);
            var i := |base + BatchQuery|;
            var j := i + |IntToString(batchId) + "&limit="|;
            j <= |u| && u[..i] == base + BatchQuery
            && ParseInt(u[i..]) == Int(batchId)
            && u[i + |IntToString(batchId)|..j] == "&limit="
            && ParseInt(u[j..]) == Int(limit)
  {
    var b, l := IntToString(batchId), IntToString(limit);
    var u := BatchProfilesUrl(base, batchId, limit);
    var i := |base + BatchQuery|;
    var j := i + |b + "&limit="|;
    assert u == (base + BatchQuery) + (b + "&limit=" + l);
    assert u[i..] == b + ("&limit=" + l);
    ParseIntOfIntToString(batchId, "&limit=" + l);
    assert u[j..] == l + [];
    ParseIntOfIntToString(limit, []);
  }

  /** The message of the error thrown for a non-ok downstream answer. */
  function FetchFailure(status: int): Error {
    Error("Failed to fetch profile: " + IntToString(status))
  }

  /** The handlers' test `error.message.includes('401')`. */
  predicate IsAuthFailure(e: Error) {
    Includes(e.message, "401")
  }

  /**
    getProfileData and fetchBatchProfiles after the fetch settles: an ok
    answer yields its parsed body unchanged, any other status throws
    FetchFailure(status), and a fetch that throws propagates its error.
   */
  function ReadResponse(fetched: Outcome<FetchResponse>): (r: Outcome<Json>)
    ensures r.Returned? <==> fetched.Returned? && IsOk(fetched.value)
    ensures r.Returned? ==> r.value == fetched.value.json
    ensures fetched.Threw? ==> r.error == fetched.error
    ensures fetched.Returned? && !IsOk(fetched.value) ==> r.error == FetchFailure(fetched.value.status)
  {
    match fetched
    case Threw(e) => Threw(e)
    case Returned(resp) => if IsOk(resp) then Returned(resp.json) else Threw(FetchFailure(resp.status))
  }

  /**
    A failed downstream answer counts as an authentication failure exactly
    when the decimal status contains '401': the message prefix has no '4'.
   */
  lemma FetchFailureIsAuthIffDigits(status: int)
    ensures IsAuthFailure(FetchFailure(status)) <==> Includes(IntToString(status), "401")
  {
    var pre := "Failed to fetch profile: ";
    assert forall k :: 0 <= k < |pre| ==> pre[k] != "401"[0];
    IncludesSkipsPrefix(pre, IntToString(status), "401");
  }

  /** For the three-digit statuses HTTP uses, that is status 401 and no other. */
  lemma FetchFailureIsAuthIff401(status: int)
    requires 100 <= status <= 999
    ensures IsAuthFailure(FetchFailure(status)) <==> status == 401
  {
    FetchFailureIsAuthIffDigits(status);
    var d := IntToString(status);
    assert |d| == 3 by { ThreeDigits(status); }
    if Includes(d, "401") {
      var i: nat :| OccursAt(d, "401", i);
      assert i == 0;
      assert d == "401";
      Render401();
      IntToStringInjective(status, 401);
    }
    if status == 401 {
      Render401();
      assert OccursAt(d, "401", 0);
    }
  }

  lemma Render401()
    ensures IntToString(401) == "401"
  {
    assert NatToString(401) == NatToString(40) + "1";
    assert NatToString(40) == NatToString(4) + "0";
  }

  lemma ThreeDigits(n: int)
    requires 100 <= n <= 999
    ensures |IntToString(n)| == 3
  {
    assert NatToString(n) == NatToString(n / 10) + [Digit(n % 10)];
    assert NatToString(n / 10) == NatToString(n / 100) + [Digit(n / 10 % 10)];
  }

  // ---------------------------------------------------------------------------
  // Route parameters

  /** `parseInt(req.params.batchId, 10)`, accepted when it is a number greater than 0. */
  function BatchIdOf(param: string): (r: Option<int>)
    ensures r.Some? <==> ParseInt(param).Int? && ParseInt(param).value > 0
    ensures r.Some? ==> r.value == ParseInt(param).value
  {
    var n := ParseInt(param);
    if n.NaN? || n.value <= 0 then None else Some(n.value)
  }

  /** `parseInt(req.query.limit, 10) || 50`: NaN and 0 are falsy. */
  function LimitOf(query: Option<string>): (l: int)
    ensures l != 0
    ensures ParseInt(ToStr(query)).Int? && ParseInt(ToStr(query)).value != 0 ==> l == ParseInt(ToStr(query)).value
    ensures ParseInt(ToStr(query)).NaN? || ParseInt(ToStr(query)) == Int(0) ==> l == DefaultLimit
  {
    var n := ParseInt(ToStr(query));
    if n.NaN? || n.value == 0 then DefaultLimit else n.value
  }

  /** Every rendered integer, whatever non-digit text follows it, is accepted as itself exactly when it is positive. */
  lemma BatchIdOfRendered(n: int, rest: string)
    requires rest == [] || !IsDigit(rest[0])
    ensures BatchIdOf(IntToString(n) + rest) == if n > 0 then Some(n) else None
  {
    ParseIntOfIntToString(n, rest);
  }

  /** Every rendered integer but 0 is taken as the limit verbatim, negatives included; 0 gives 50. */
  lemma LimitOfRendered(n: int, rest: string)
    requires rest == [] || !IsDigit(rest[0])
    ensures LimitOf(Some(IntToString(n) + rest)) == if n == 0 then DefaultLimit else n
  {
    ParseIntOfIntToString(n, rest);
  }

  /**
    The classification reads the whole message: an error whose text quotes
    the URL of a batch whose id contains the digits 401 (401, 1401, 4010, …),
    as a network error quoting its request does, counts as an
    authentication failure whatever its cause.
   */
  lemma QuotedBatchUrlLooksLike401(base: string, batchId: int, limit: int, before: string, after: string)
    requires Includes(IntToString(batchId), "401")
    ensures IsAuthFailure(Error(before + BatchProfilesUrl(base, batchId, limit) + after))
  {
    var x := before + base + BatchQuery;
    var y := "&limit=" + IntToString(limit) + after;
    Regroup(before, base, BatchQuery, IntToString(batchId), "&limit=", IntToString(limit), after);
    IncludesBetween(x, IntToString(batchId), y, "401");
  }

  lemma Regroup(a: string, b: string, c: string, d: string, e: string, f: string, g: string)
    ensures a + (b + c + d + e + f) + g == (a + b + c) + d + (e + f + g)
  {
  }

  /** The batch ids the route turns away, and one it accepts by reading only its digit prefix. */
  lemma BatchIdSamples()
    ensures BatchIdOf("0").None? && BatchIdOf("-5").None? && BatchIdOf("abc").None?
    ensures BatchIdOf("12abc") == Some(12)
  {
    ParseIntReadsNumbers();
    ParseIntRejectsNonNumbers();
    ParseIntReadsDigitPrefix();
  }

  /** Absent, non-numeric and zero limits give 50. */
  lemma LimitDefaults()
    ensures LimitOf(None) == 50 && LimitOf(Some("notanumber")) == 50 && LimitOf(Some("0")) == 50
  {
    ParseIntReadsNumbers();
    ParseIntRejectsNonNumbers();
    assert TrimStart("notanumber") == "notanumber";
  }

  /** Other limits pass through as parsed, negatives included. */
  lemma LimitPassesThrough()
    ensures LimitOf(Some("-5")) == -5 && LimitOf(Some("12abc")) == 12
  {
    ParseIntReadsNumbers();
    ParseIntReadsDigitPrefix();
  }

  // ---------------------------------------------------------------------------
  // Downstream calls

  /** getProfileData: one fetch of /profiles/me with the token's headers. */
  method GetProfileData(cfg: Config, req: Request, token: string, fetched: Outcome<FetchResponse>)
    returns (r: Outcome<Json>)
    modifies req
    ensures req.calls == old(req.calls) + [Fetch(ProfilesMeUrl(cfg.apiBaseUrl), MakeFetchHeaders(token))]
    ensures req.accessToken == old(req.accessToken)
    ensures r == ReadResponse(fetched)
  {
    req.calls := req.calls + [Fetch(ProfilesMeUrl(cfg.apiBaseUrl), MakeFetchHeaders(token))];
    r := ReadResponse(fetched);
  }

  /**
    fetchBatchProfiles. Its first two guards call an undefined `reject`, so
    they throw a ReferenceError; the route never reaches them.
   */
  method FetchBatchProfiles(cfg: Config, req: Request, batchId: int, limit: int, token: string,
                            fetched: Outcome<FetchResponse>) returns (r: Outcome<Json>)
    modifies req
    ensures req.accessToken == old(req.accessToken)
    ensures batchId == 0 || token == "" ==> r == Threw(RejectIsNotDefined) && req.calls == old(req.calls)
    ensures batchId != 0 && token != "" ==>
              req.calls == old(req.calls) + [Fetch(BatchProfilesUrl(cfg.apiBaseUrl, batchId, limit), MakeFetchHeaders(token))]
              && r == ReadResponse(fetched)
  {
    if batchId == 0 || token == "" {
      return Threw(RejectIsNotDefined);
    }
    req.calls := req.calls + [Fetch(BatchProfilesUrl(cfg.apiBaseUrl, batchId, limit), MakeFetchHeaders(token))];
    r := ReadResponse(fetched);
  }

  // ---------------------------------------------------------------------------
  // Route handlers

  /**
    The try block of a handler after its helper settles: the success log
    reads the property `prop` of the body, which throws for a null body.
   */
  function AfterLog(r: Outcome<Json>, prop: string): Outcome<Json> {
    if r.Returned? && r.value.Null? then Threw(ReadOfNull(prop)) else r
  }

  /** Reading a property whose name has no '4' of null throws an error that is not taken for an authentication failure. */
  lemma ReadOfNullIsNotAuthFailure(prop: string)
    requires forall k :: 0 <= k < |prop| ==> prop[k] != '4'
    ensures !IsAuthFailure(ReadOfNull(prop))
  {
    var pre := "Cannot read properties of null (reading '";
    var m := ReadOfNull(prop).message;
    assert m == pre + prop + "')";
    forall k | 0 <= k < |m|
      ensures m[k] != "401"[0]
    {
      if k < |pre| {
        assert m[k] == pre[k];
      } else if k < |pre| + |prop| {
        assert m[k] == prop[k - |pre|];
      } else {
        assert m[k] == "')"[k - |pre| - |prop|];
      }
    }
    NoStartNoOccurrence(m, "401");
  }

  /**
    GET /profile. Without an access token: 401 and no downstream call. An
    ok answer is sent on unchanged unless its body is null, whose logging
    throws; an error mentioning '401' destroys the session and gives 401;
    any other error gives 500 and leaves the session.
   */
  method Profile(cfg: Config, req: Request, fetched: Outcome<FetchResponse>, storeError: Option<Error>)
    returns (resp: Response)
    modifies req, req.session
    ensures req.accessToken == old(req.accessToken)
    ensures !Truthy(req.accessToken) ==>
              resp == JsonResponse(401, ErrorBody(NotAuthenticated)) && req.calls == old(req.calls)
              && req.session.token == old(req.session.token) && req.session.destroyed == old(req.session.destroyed)
    ensures Truthy(req.accessToken) ==>
              var call := Fetch(ProfilesMeUrl(cfg.apiBaseUrl), MakeFetchHeaders(req.accessToken.value));
              var t := AfterLog(ReadResponse(fetched), "name");
              if t.Returned? then
                resp == JsonResponse(200, Downstream(t.value)) && req.calls == old(req.calls) + [call]
                && req.session.token == old(req.session.token) && req.session.destroyed == old(req.session.destroyed)
              else if IsAuthFailure(t.error) then
                resp == JsonResponse(401, ErrorBody(ProfileAuthFailed))
                && (old(req.session.destroyed) ==>
                      req.calls == old(req.calls) + [call] && req.session.token == old(req.session.token)
                      && req.session.destroyed)
                && (!old(req.session.destroyed) ==>
                      req.calls == old(req.calls) + [call, DestroySession]
                      && (storeError.None? ==> req.session.destroyed && req.session.token == None)
                      && (storeError.Some? ==> !req.session.destroyed && req.session.token == old(req.session.token)))
              else
                resp == JsonResponse(500, ErrorBody(ProfileFailed)) && req.calls == old(req.calls) + [call]
                && req.session.token == old(req.session.token) && req.session.destroyed == old(req.session.destroyed)
    // An ok answer with a null body: the log of `profileData.name` throws, and the answer is 500.
    ensures Truthy(req.accessToken) && fetched.Returned? && IsOk(fetched.value) && fetched.value.json.Null? ==>
              resp == JsonResponse(500, ErrorBody(ProfileFailed))
              && req.session.token == old(req.session.token) && req.session.destroyed == old(req.session.destroyed)
  {
    if !Truthy(req.accessToken) {
      return JsonResponse(401, ErrorBody(NotAuthenticated));
    }
    var r := GetProfileData(cfg, req, req.accessToken.value, fetched);
    ReadOfNullIsNotAuthFailure("name");
    match AfterLog(r, "name") {
      case Returned(profile) =>
        resp := JsonResponse(200, Downstream(profile));
      case Threw(e) =>
        if IsAuthFailure(e) {
          if !req.session.destroyed {
            Destroy(req, storeError);
          }
          resp := JsonResponse(401, ErrorBody(ProfileAuthFailed));
        } else {
          resp := JsonResponse(500, ErrorBody(ProfileFailed));
        }
    }
  }

  /** The 500 message of the batch route. */
  function BatchFailed(batchId: int, e: Error): string {
    "Could not load profiles for batch " + IntToString(batchId) + ": " + e.message
  }

  /**
    GET /batches/:batchId/profiles. The access token is checked before the
    batch id; the limit is passed on as parsed; a null body makes the log of
    its length throw; no outcome touches the session, a downstream 401
    included.
   */
  method BatchProfiles(cfg: Config, req: Request, batchParam: string, limitQuery: Option<string>,
                       fetched: Outcome<FetchResponse>) returns (resp: Response)
    modifies req
    ensures unchanged(req.session) && req.accessToken == old(req.accessToken)
    ensures !Truthy(req.accessToken) ==>
              resp == JsonResponse(401, ErrorBody(NotAuthenticated)) && req.calls == old(req.calls)
    ensures Truthy(req.accessToken) && BatchIdOf(batchParam).None? ==>
              resp == JsonResponse(400, ErrorBody(InvalidBatchId)) && req.calls == old(req.calls)
    ensures Truthy(req.accessToken) && BatchIdOf(batchParam).Some? ==>
              var batchId := BatchIdOf(batchParam).value;
              var t := AfterLog(ReadResponse(fetched), "length");
              req.calls == old(req.calls)
                           + [Fetch(BatchProfilesUrl(cfg.apiBaseUrl, batchId, LimitOf(limitQuery)),
                                    MakeFetchHeaders(req.accessToken.value))]
              && resp == if t.Returned? then JsonResponse(200, Downstream(t.value))
                         else if IsAuthFailure(t.error) then JsonResponse(401, ErrorBody(BatchAuthFailed))
                         else JsonResponse(500, ErrorBody(BatchFailed(batchId, t.error)))
    // An ok answer with a null body: the log of `profiles.length` throws, and the 500 quotes that TypeError.
    ensures Truthy(req.accessToken) && BatchIdOf(batchParam).Some?
            && fetched.Returned? && IsOk(fetched.value) && fetched.value.json.Null? ==>
              resp == JsonResponse(500, ErrorBody(BatchFailed(BatchIdOf(batchParam).value, ReadOfNull("length"))))
  {
    if !Truthy(req.accessToken) {
      return JsonResponse(401, ErrorBody(NotAuthenticated));
    }
    var batchId := ParseInt(batchParam);
    var limit := LimitOf(limitQuery);
    if batchId.NaN? || batchId.value <= 0 {
      return JsonResponse(400, ErrorBody(InvalidBatchId));
    }
    var r := FetchBatchProfiles(cfg, req, batchId.value, limit, req.accessToken.value, fetched);
    ReadOfNullIsNotAuthFailure("length");
    match AfterLog(r, "length") {
      case Returned(profiles) =>
        resp := JsonResponse(200, Downstream(profiles));
      case Threw(e) =>
        if IsAuthFailure(e) {
          resp := JsonResponse(401, ErrorBody(BatchAuthFailed));
        } else {
          resp := JsonResponse(500, ErrorBody(BatchFailed(batchId.value, e)));
        }
    }
  }
}
