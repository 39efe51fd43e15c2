/**
 * Properties that relate several operations of the Ohmage handle: login
 * followed by is_authenticated, login followed by a read that relies on the
 * cached credentials, and repeated credential merging.
 */
module OhmageProps {
  import opened PyValues
  import opened PyInt
  import opened Responses
  import opened Ohmage

  /** Merging cached credentials twice is the same as merging them once. */
  lemma AddLoginIdempotent(c: Credentials, p: Params, useToken: bool)
    ensures AddLogin(c, AddLogin(c, p, useToken), useToken) == AddLogin(c, p, useToken)
  {
  }

  /** The credential a request carries after merging, for the given mode. */
  predicate CarriesCredential(r: Params, useToken: bool) {
    if useToken then Supplied(r, "auth_token") else Supplied(r, "user") || Supplied(r, "password")
  }

  /** A handle that is_authenticated for the mode, with true cached values,
      always sends a credential of that mode: the cached one or the caller's. */
  lemma AuthenticatedRequestCarriesCredential(c: Credentials, p: Params, useToken: bool)
    requires c.IsAuthenticated(useToken)
    requires Truthy(c.username.value)
    requires useToken ==> Truthy(c.token.value)
    requires !useToken ==> Truthy(c.hashedPass.value)
    ensures CarriesCredential(AddLogin(c, p, useToken), useToken)
  {
  }

  /** The reply a successful request gets: HTTP "200" and a JSON body that
      decodes to a dict whose `result` is "success". */
  predicate SuccessReply(reply: HttpReply, fields: map<string, Json>) {
    reply.status == "200" && reply.body != [] && reply.body[0] == '{'
    && reply.decoded == Some(JObj(fields)) && "result" in fields && fields["result"] == JStr("success")
  }

  lemma SuccessReplyPassesThrough(reply: HttpReply, fields: map<string, Json>)
    requires SuccessReply(reply, fields)
    ensures PerformRequestAsWritten(reply) == Success(JObj(fields))
  {
    NotXml(reply.body);
  }

  /** A login with token only, on a fresh handle, caches a token but does not
      make the handle authenticated in either mode: no username is cached. */
  lemma TokenOnlyLoginNotAuthenticated(username: Json, password: Json, client: string,
                                       transport: Request -> HttpReply, forToken: bool)
    ensures var r := LoginSpec(NoCredentials, username, password, false, true, client, transport);
            r.creds.username.None? && !r.creds.IsAuthenticated(forToken)
  {
  }

  /** login(user, password), with both requests answered successfully,
      caches the username, the hashed password and the token, replacing
      whatever was cached before, and the handle is authenticated in both
      modes. */
  lemma FullLogin(c: Credentials, username: Json, password: Json, client: string, transport: Request -> HttpReply,
                  hashedFields: map<string, Json>, tokenFields: map<string, Json>)
    requires SuccessReply(transport(AuthRequest("/user/auth", username, password, client)), hashedFields)
    requires SuccessReply(transport(AuthRequest("/user/auth_token", username, password, client)), tokenFields)
    requires "hashed_password" in hashedFields && "token" in tokenFields
    ensures var r := LoginSpec(c, username, password, true, true, client, transport);
            r.outcome == Completed
            && r.creds == Credentials(Some(username), Some(hashedFields["hashed_password"]), Some(tokenFields["token"]))
            && r.creds.IsAuthenticated(true) && r.creds.IsAuthenticated(false)
  {
    SuccessReplyPassesThrough(transport(AuthRequest("/user/auth", username, password, client)), hashedFields);
    SuccessReplyPassesThrough(transport(AuthRequest("/user/auth_token", username, password, client)), tokenFields);
  }

  /** After that login, campaign_read without an explicit token sends the
      cached token, whatever other keyword arguments it is given. */
  lemma LoginThenCampaignReadSendsToken(username: Json, password: Json, client: string,
                                        transport: Request -> HttpReply,
                                        hashedFields: map<string, Json>, tokenFields: map<string, Json>,
                                        outputFormat: Json, kwargs: Params)
    requires SuccessReply(transport(AuthRequest("/user/auth", username, password, client)), hashedFields)
    requires SuccessReply(transport(AuthRequest("/user/auth_token", username, password, client)), tokenFields)
    requires "hashed_password" in hashedFields && "token" in tokenFields
    requires "auth_token" !in kwargs && "output_format" !in kwargs
    ensures var creds := LoginSpec(NoCredentials, username, password, true, true, client, transport).creds;
            CampaignReadParams(creds, client, JNull, outputFormat, kwargs)["auth_token"] == tokenFields["token"]
  {
    FullLogin(NoCredentials, username, password, client, transport, hashedFields, tokenFields);
  }

  /** login raises OhmageApiException with the reply's errors when the server
      answers user_auth with a failure result (a rejected password), and no
      credential changes. */
  lemma RejectedLogin(c: Credentials, username: Json, password: Json, client: string,
                      transport: Request -> HttpReply, doToken: bool, body: string, errors: Json)
    requires body != [] && body[0] == '{'
    requires transport(AuthRequest("/user/auth", username, password, client))
             == HttpReply("200", body, Some(JObj(map["result" := JStr("failure"), "errors" := errors])))
    ensures LoginSpec(c, username, password, true, doToken, client, transport)
            == LoginResult(c, Raised(OhmageApiException(errors)))
  {
    NotXml(body);
  }

  /** A user_auth reply with a status other than "200" makes login raise
      HTTPException with that status and body, whatever the body holds, and
      no credential changes: the override never reinterprets it. */
  lemma LoginHttpErrorRaises(c: Credentials, username: Json, password: Json, client: string,
                             transport: Request -> HttpReply, doToken: bool)
    requires transport(AuthRequest("/user/auth", username, password, client)).status != "200"
    ensures var reply := transport(AuthRequest("/user/auth", username, password, client));
            LoginSpec(c, username, password, true, doToken, client, transport)
            == LoginResult(c, Raised(HttpException(reply.status, reply.body)))
  {
  }

  /** A user_auth reply without `hashed_password` leaves the handle half
      logged in: the username is cached (it is assigned first), the hashed
      password is not, and login raises KeyError before any token request. */
  lemma HashedLoginMissingKey(username: Json, password: Json, client: string,
                              transport: Request -> HttpReply, fields: map<string, Json>)
    requires SuccessReply(transport(AuthRequest("/user/auth", username, password, client)), fields)
    requires "hashed_password" !in fields
    ensures var r := LoginSpec(NoCredentials, username, password, true, true, client, transport);
            r.creds == Credentials(Some(username), None, None)
            && r.outcome == Raised(KeyError("hashed_password"))
            && !r.creds.IsAuthenticated(false) && !r.creds.IsAuthenticated(true)
  {
    SuccessReplyPassesThrough(transport(AuthRequest("/user/auth", username, password, client)), fields);
  }

  /** survey_response_read as written: a true `auth_token` argument never
      reaches the request when no token is cached. */
  lemma SurveyResponseReadDropsToken(c: Credentials, client: string, authToken: Json, campaignUrn: Json,
                                     outputFormat: Json, columnList: Json, userList: Json, kwargs: Params)
    requires Truthy(authToken) && c.token.None?
    requires "auth_token" !in kwargs && "campaign_urn" !in kwargs && "output_format" !in kwargs
    requires "column_list" !in kwargs && "user_list" !in kwargs
    ensures "auth_token" !in SurveyResponseReadParams(c, client, authToken, campaignUrn, outputFormat, columnList,
                                                      userList, kwargs)
  {
  }

  /** As written, the request does not depend on the `auth_token` argument. */
  lemma SurveyResponseReadIgnoresToken(c: Credentials, client: string, token1: Json, token2: Json,
                                       campaignUrn: Json, outputFormat: Json, columnList: Json, userList: Json,
                                       kwargs: Params)
    requires "auth_token" !in kwargs && "campaign_urn" !in kwargs && "output_format" !in kwargs
    requires "column_list" !in kwargs && "user_list" !in kwargs
    ensures SurveyResponseReadParams(c, client, token1, campaignUrn, outputFormat, columnList, userList, kwargs)
            == SurveyResponseReadParams(c, client, token2, campaignUrn, outputFormat, columnList, userList, kwargs)
  {
  }

  /** With the corrected dict, that same argument is what the request sends. */
  lemma SurveyResponseReadSendsToken(c: Credentials, client: string, authToken: Json, campaignUrn: Json,
                                     outputFormat: Json, columnList: Json, userList: Json, kwargs: Params)
    requires Truthy(authToken)
    requires "auth_token" !in kwargs && "campaign_urn" !in kwargs && "output_format" !in kwargs
    requires "column_list" !in kwargs && "user_list" !in kwargs
    ensures SurveyResponseReadParamsCorrected(c, client, authToken, campaignUrn, outputFormat, columnList, userList,
                                              kwargs)["auth_token"] == authToken
  {
  }
}
