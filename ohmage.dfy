/**
 * The Ohmage API handle (OhmageApi): its cached credentials, `login`,
 * `is_authenticated`, the merging of cached credentials into a request's
 * parameters, and the parameter maps the facade methods build.
 *
 * A request is not sent: each facade method returns the Request it hands to
 * `_perform_request`, and Login takes the transport as a function from a
 * request to the reply it gets.
 */
module Ohmage {
  import opened PyValues
  import opened Responses

  /** A request's parameters, a Python dict with str keys. */
  type Params = map<string, Json>

  /** The only keys that cached credentials are ever written to. */
  const LoginKeys: set<string> := {"auth_token", "user", "password"}

  /** The handle's three credential attributes; None when the attribute was
      never assigned (`hasattr` is false). */
  datatype Credentials = Credentials(username: Option<Json>, hashedPass: Option<Json>, token: Option<Json>)
  {
    /** is_authenticated: a username is cached, and a token (forToken) or a
        hashed password (not forToken) is cached; validity is not checked. */
    predicate IsAuthenticated(forToken: bool) {
      username.Some? && (if forToken then token.Some? else hashedPass.Some?)
    }
  }

  const NoCredentials: Credentials := Credentials(None, None, None)

  /** The caller gave key `k` a value Python considers true: the test
      `k in params and params[k]`. */
  predicate Supplied(p: Params, k: string) {
    k in p && Truthy(p[k])
  }

  /** Key `k` is present in both maps with the same value, or in neither. */
  predicate SameEntry(p: Params, r: Params, k: string) {
    (k in p <==> k in r) && (k in p ==> p[k] == r[k])
  }

  /** The parameters after OhmageApi._add_login_to_params(params, useToken).
      With useToken and a cached token, only `auth_token` may be filled in;
      otherwise, with a cached username and hashed password, `user` and
      `password` are filled in together when the caller gave neither. */
  function AddLogin(c: Credentials, p: Params, useToken: bool): (r: Params)
    // keys are only added, and only credential keys
    ensures p.Keys <= r.Keys <= p.Keys + LoginKeys
    // every other entry is left as it was
    ensures forall k :: k in p && k !in LoginKeys ==> r[k] == p[k]
    // a credential the caller supplied is never replaced
    ensures forall k :: Supplied(p, k) ==> r[k] == p[k]
    // when neither branch applies, nothing changes
    ensures !(useToken && c.token.Some?) && !(c.username.Some? && c.hashedPass.Some?) ==> r == p
    // token branch: auth_token is the caller's if supplied, else the cached one
    ensures useToken && c.token.Some? ==>
              "auth_token" in r
              && r["auth_token"] == (if Supplied(p, "auth_token") then p["auth_token"] else c.token.value)
              && SameEntry(p, r, "user") && SameEntry(p, r, "password")
    // hashed branch: user and password are both replaced, or the map is unchanged
    ensures !(useToken && c.token.Some?) && c.username.Some? && c.hashedPass.Some? ==>
              SameEntry(p, r, "auth_token")
              && if !Supplied(p, "user") && !Supplied(p, "password")
                 then "user" in r && "password" in r
                      && r["user"] == c.username.value && r["password"] == c.hashedPass.value
                 else r == p
  {
    if useToken && c.token.Some? then
      if !Supplied(p, "auth_token") then p["auth_token" := c.token.value] else p
    else if c.username.Some? && c.hashedPass.Some? then
      if !Supplied(p, "user") && !Supplied(p, "password") then
        p["user" := c.username.value]["password" := c.hashedPass.value]
      else p
    else p
  }

  datatype RequestType = Standard | Multipart

  /** What a facade method hands to _perform_request. */
  datatype Request = Request(uri: string, httpMethod: string, params: Params, requestType: RequestType)

  /** The request user_auth and user_auth_token send: a POST of the given
      username and password and the handle's client name, and nothing else. */
  function AuthRequest(uri: string, username: Json, password: Json, client: string): (req: Request)
    ensures req.uri == uri && req.httpMethod == "POST" && req.requestType == Standard
    ensures req.params.Keys == {"user", "password", "client"}
    ensures req.params["user"] == username && req.params["password"] == password
    ensures req.params["client"] == JStr(client)
  {
    Request(uri, "POST", map["user" := username, "password" := password, "client" := JStr(client)], Standard)
  }

  /** How a call ends: normally, or with the exception it raised. */
  datatype Outcome = Completed | Raised(error: PyError)

  datatype LoginResult = LoginResult(creds: Credentials, outcome: Outcome)

  /** What user_auth returns or raises, through _perform_request as written. */
  function UserAuth(username: Json, password: Json, client: string, transport: Request -> HttpReply): Result<Json> {
    PerformRequestAsWritten(transport(AuthRequest("/user/auth", username, password, client)))
  }

  /** What user_auth_token returns or raises, through _perform_request as written. */
  function UserAuthToken(username: Json, password: Json, client: string, transport: Request -> HttpReply): Result<Json> {
    PerformRequestAsWritten(transport(AuthRequest("/user/auth_token", username, password, client)))
  }

  /** user_auth returned a result holding `hashed_password`. */
  predicate HashedStepCompletes(username: Json, password: Json, client: string, transport: Request -> HttpReply) {
    var auth := UserAuth(username, password, client, transport);
    auth.Success? && Lookup(auth.value, "hashed_password").Success?
  }

  /** The hashed step of login: user_auth, then `auth_username` is assigned
      before `result['hashed_password']` is evaluated, so a reply without
      that key leaves the username cached and raises. */
  function HashedLoginStep(c: Credentials, username: Json, password: Json, client: string,
                           transport: Request -> HttpReply): LoginResult
  {
    match UserAuth(username, password, client, transport)
    case Failure(e) => LoginResult(c, Raised(e))
    case Success(result) =>
      var named := c.(username := Some(username));
      match Lookup(result, "hashed_password")
      case Failure(e) => LoginResult(named, Raised(e))
      case Success(h) => LoginResult(named.(hashedPass := Some(h)), Completed)
  }

  /** The token step of login: user_auth_token, then `result['token']`. */
  function TokenLoginStep(c: Credentials, username: Json, password: Json, client: string,
                          transport: Request -> HttpReply): LoginResult
  {
    match UserAuthToken(username, password, client, transport)
    case Failure(e) => LoginResult(c, Raised(e))
    case Success(result) =>
      match Lookup(result, "token")
      case Failure(e) => LoginResult(c, Raised(e))
      case Success(t) => LoginResult(c.(token := Some(t)), Completed)
  }

  /** The credentials and outcome of OhmageApi.login: the hashed step, then,
      unless it raised, the token step. */
  function LoginSpec(c: Credentials, username: Json, password: Json, doHashed: bool, doToken: bool,
                     client: string, transport: Request -> HttpReply): (r: LoginResult)
    // a disabled step leaves its fields unchanged
    ensures !doHashed ==> r.creds.username == c.username && r.creds.hashedPass == c.hashedPass
    ensures !doToken ==> r.creds.token == c.token
    ensures !doHashed && !doToken ==> r == LoginResult(c, Completed)
    // a failed user_auth request changes nothing and raises its exception
    ensures doHashed && UserAuth(username, password, client, transport).Failure? ==>
              r == LoginResult(c, Raised(UserAuth(username, password, client, transport).error))
    // a user_auth result without hashed_password: only the username is cached, and login raises
    ensures doHashed && UserAuth(username, password, client, transport).Success? ==>
              var h := Lookup(UserAuth(username, password, client, transport).value, "hashed_password");
              h.Failure? ==> r == LoginResult(c.(username := Some(username)), Raised(h.error))
    // a completed hashed step caches the username and the hashed password, whatever the token step does
    ensures doHashed && HashedStepCompletes(username, password, client, transport) ==>
              r.creds.username == Some(username)
              && r.creds.hashedPass == Some(Lookup(UserAuth(username, password, client, transport).value,
                                                   "hashed_password").value)
    ensures doHashed && !doToken && HashedStepCompletes(username, password, client, transport) ==>
              r.outcome == Completed
    // the token step, once reached: a failed request or a result without `token`
    // raises and leaves the token as it was; otherwise the token is cached
    ensures doToken && (!doHashed || HashedStepCompletes(username, password, client, transport)) ==>
              var tok := UserAuthToken(username, password, client, transport);
              (tok.Failure? ==> r.outcome == Raised(tok.error) && r.creds.token == c.token)
              && (tok.Success? && Lookup(tok.value, "token").Failure? ==>
                    r.outcome == Raised(Lookup(tok.value, "token").error) && r.creds.token == c.token)
              && (tok.Success? && Lookup(tok.value, "token").Success? ==>
                    r.outcome == Completed && r.creds.token == Some(Lookup(tok.value, "token").value))
  {
    var first := if doHashed then HashedLoginStep(c, username, password, client, transport)
                 else LoginResult(c, Completed);
    if first.outcome.Raised? || !doToken then first
    else TokenLoginStep(first.creds, username, password, client, transport)
  }

  /** A Python dict that code mutates in place. */
  class ParamDict {
    var items: Params

    constructor (init: Params)
      ensures items == init
    {
      items := init;
    }

    /** dict.update: entries of `other` are added, overriding existing ones. */
    method Update(other: Params)
      modifies this
      ensures items == old(items) + other
    {
      items := items + other;
    }

    /** `d[key] = value`. */
    method Set(key: string, value: Json)
      modifies this
      ensures items == old(items)[key := value]
    {
      items := items[key := value];
    }

    /** `if value: d[key] = value`. */
    method SetIfTrue(key: string, value: Json)
      modifies this
      ensures items == WithOptional(old(items), key, value)
    {
      if Truthy(value) {
        Set(key, value);
      }
    }
  }

  class OhmageApi {
    const server: string
    const appPrefix: string
    const client: string
    var authUsername: Option<Json>
    var authHashedPass: Option<Json>
    var authToken: Option<Json>

    /** The cached credentials as a value. */
    function Creds(): Credentials
      reads this
    {
      Credentials(authUsername, authHashedPass, authToken)
    }

    constructor (server: string, appPrefix: string := "/app", client: string := "ohmage-python-api")
      ensures this.server == server && this.appPrefix == appPrefix && this.client == client
      ensures Creds() == NoCredentials
    {
      this.server := server;
      this.appPrefix := appPrefix;
      this.client := client;
      authUsername, authHashedPass, authToken := None, None, None;
    }

    /** OhmageApi.login, with the server reached through `transport`. */
    method Login(transport: Request -> HttpReply, username: Json, password: Json,
                 doHashedLogin: bool := true, doTokenLogin: bool := true)
      returns (outcome: Outcome)
      modifies this
      ensures LoginResult(Creds(), outcome)
              == LoginSpec(old(Creds()), username, password, doHashedLogin, doTokenLogin, client, transport)
    {
      if doHashedLogin {
        var result := UserAuth(username, password, client, transport);
        if result.Failure? {
          return Raised(result.error);
        }
        authUsername := Some(username);
        var hashed := Lookup(result.value, "hashed_password");
        if hashed.Failure? {
          return Raised(hashed.error);
        }
        authHashedPass := Some(hashed.value);
      }
      if doTokenLogin {
        var result := UserAuthToken(username, password, client, transport);
        if result.Failure? {
          return Raised(result.error);
        }
        var token := Lookup(result.value, "token");
        if token.Failure? {
          return Raised(token.error);
        }
        authToken := Some(token.value);
      }
      return Completed;
    }

    /** OhmageApi.is_authenticated: which attributes have been assigned, not
        whether their values are valid. */
    function IsAuthenticated(forToken: bool := false): (b: bool)
      reads this
      ensures b <==> authUsername.Some? && (if forToken then authToken.Some? else authHashedPass.Some?)
    {
      Creds().IsAuthenticated(forToken)
    }

    /** OhmageApi._add_login_to_params: updates `params` in place. */
    method AddLoginToParams(params: ParamDict, useToken: bool)
      modifies params
      ensures params.items == AddLogin(Creds(), old(params.items), useToken)
    {
      if useToken && authToken.Some? {
        if !("auth_token" in params.items && Truthy(params.items["auth_token"])) {
          params.Set("auth_token", authToken.value);
        }
      } else if authUsername.Some? && authHashedPass.Some? {
        if !("user" in params.items && Truthy(params.items["user"]))
           && !("password" in params.items && Truthy(params.items["password"])) {
          params.Set("user", authUsername.value);
          params.Set("password", authHashedPass.value);
        }
      }
    }

    /** OhmageApi.campaign_read. */
    method CampaignRead(authToken: Json := JNull, outputFormat: Json := JStr("short"), kwargs: Params := map[])
      returns (req: Request)
      requires "auth_token" !in kwargs && "output_format" !in kwargs
      ensures req == Request("/campaign/read", "POST", CampaignReadParams(Creds(), client, authToken, outputFormat, kwargs), Standard)
    {
      var params := new ParamDict(map["auth_token" := authToken, "output_format" := outputFormat,
                                      "client" := JStr(client)]);
      params.Update(kwargs);
      AddLoginToParams(params, true);
      req := Request("/campaign/read", "POST", params.items, Standard);
    }

    /** OhmageApi.survey_upload: the surveys go as the text
        `simplejson.dumps(surveys)` (JSON encoding is not modelled), in a
        multipart request. */
    method SurveyUpload(user: Json := JNull, hashedpass: Json := JNull, campaignUrn: Json := JNull,
                        campaignCreationTimestamp: Json := JNull, surveysText: string := "null")
      returns (req: Request)
      ensures req == Request("/survey/upload", "POST",
                             SurveyUploadParams(Creds(), client, user, hashedpass, campaignUrn,
                                                campaignCreationTimestamp, surveysText), Multipart)
    {
      var params := new ParamDict(map["user" := user, "password" := hashedpass, "client" := JStr(client),
                                      "campaign_urn" := campaignUrn,
                                      "campaign_creation_timestamp" := campaignCreationTimestamp,
                                      "surveys" := JStr(surveysText)]);
      AddLoginToParams(params, false);
      req := Request("/survey/upload", "POST", params.items, Multipart);
    }

    /** OhmageApi.survey_response_read as written: the `auth_token` argument is
        accepted but never put into the parameters. */
    method SurveyResponseRead(authToken: Json := JNull, campaignUrn: Json := JNull,
                              outputFormat: Json := JStr("json-rows"),
                              columnList: Json := JStr("urn:ohmage:special:all"),
                              userList: Json := JStr("urn:ohmage:special:all"), kwargs: Params := map[])
      returns (req: Request)
      requires "auth_token" !in kwargs && "campaign_urn" !in kwargs && "output_format" !in kwargs
      requires "column_list" !in kwargs && "user_list" !in kwargs
      ensures req == Request("/survey_response/read", "POST",
                             SurveyResponseReadParams(Creds(), client, authToken, campaignUrn, outputFormat,
                                                      columnList, userList, kwargs), Standard)
    {
      var params := new ParamDict(map["campaign_urn" := campaignUrn, "output_format" := outputFormat,
                                      "column_list" := columnList, "user_list" := userList,
                                      "client" := JStr(client)]);
      params.Update(kwargs);
      AddLoginToParams(params, true);
      req := Request("/survey_response/read", "POST", params.items, Standard);
    }

    /** OhmageApi.mobility_read. */
    method MobilityRead(authToken: Json := JNull, date: Json := JNull, kwargs: Params := map[])
      returns (req: Request)
      requires "auth_token" !in kwargs && "date" !in kwargs
      ensures req == Request("/mobility/read", "POST", MobilityReadParams(Creds(), client, authToken, date, kwargs), Standard)
    {
      var params := new ParamDict(map["auth_token" := authToken, "date" := date, "client" := JStr(client)]);
      params.Update(kwargs);
      AddLoginToParams(params, true);
      req := Request("/mobility/read", "POST", params.items, Standard);
    }

    /** OhmageApi.mobility_dates_read. */
    method MobilityDatesRead(authToken: Json := JNull, startDate: Json := JNull, endDate: Json := JNull,
                             username: Json := JNull, kwargs: Params := map[])
      returns (req: Request)
      requires "auth_token" !in kwargs && "start_date" !in kwargs && "end_date" !in kwargs && "username" !in kwargs
      ensures req == Request("/mobility/dates/read", "POST",
                             MobilityDatesReadParams(Creds(), client, authToken, startDate, endDate, username, kwargs),
                             Standard)
    {
      var params := new ParamDict(map["auth_token" := authToken, "client" := JStr(client)]);
      params.Update(kwargs);
      params.SetIfTrue("start_date", startDate);
      params.SetIfTrue("end_date", endDate);
      params.SetIfTrue("username", username);
      AddLoginToParams(params, true);
      req := Request("/mobility/dates/read", "POST", params.items, Standard);
    }
  }

  // ---------------------------------------------------------------------
  // The parameters each facade method sends, given the cached credentials
  // and the handle's client name. Python binds the names of a method's
  // named parameters to those parameters, so **kwargs never holds them.

  /** campaign_read: auth_token, output_format and client, overridden by the
      keyword arguments, then the cached token. */
  function CampaignReadParams(c: Credentials, client: string, authToken: Json, outputFormat: Json,
                              kwargs: Params): (r: Params)
    requires "auth_token" !in kwargs && "output_format" !in kwargs
    ensures r.Keys <= {"auth_token", "output_format", "client"} + kwargs.Keys + LoginKeys
    ensures "output_format" in r && r["output_format"] == outputFormat
    // keyword arguments override the required keys
    ensures "client" in r && r["client"] == if "client" in kwargs then kwargs["client"] else JStr(client)
    ensures forall k :: k in kwargs && (k !in LoginKeys || Supplied(kwargs, k)) ==> k in r && r[k] == kwargs[k]
    // an explicit token wins; otherwise a cached one is used
    ensures "auth_token" in r
    ensures Truthy(authToken) ==> r["auth_token"] == authToken
    ensures !Truthy(authToken) && c.token.Some? ==> r["auth_token"] == c.token.value
    ensures !Truthy(authToken) && c.token.None? ==> r["auth_token"] == authToken
    // with no token cached, the hashed credentials are the fallback
    ensures c.token.None? && c.IsAuthenticated(false) && !Supplied(kwargs, "user") && !Supplied(kwargs, "password") ==>
              "user" in r && "password" in r && r["user"] == c.username.value && r["password"] == c.hashedPass.value
    // otherwise `user` and `password` are exactly what kwargs gave
    ensures !(c.token.None? && c.IsAuthenticated(false) && !Supplied(kwargs, "user") && !Supplied(kwargs, "password")) ==>
              SameEntry(kwargs, r, "user") && SameEntry(kwargs, r, "password")
  {
    KeysDistinct();
    var base := map["auth_token" := authToken, "output_format" := outputFormat, "client" := JStr(client)];
    assert "user" !in base && "password" !in base && "auth_token" in base && base["auth_token"] == authToken;
    KwargsMerge(c, base, kwargs, true);
    TokenMerge(c, base + kwargs, authToken, kwargs);
    AddLogin(c, base + kwargs, true)
  }

  /** survey_upload: hashed-password credentials only. */
  function SurveyUploadParams(c: Credentials, client: string, user: Json, hashedpass: Json, campaignUrn: Json,
                              campaignCreationTimestamp: Json, surveysText: string): (r: Params)
    ensures r.Keys == {"user", "password", "client", "campaign_urn", "campaign_creation_timestamp", "surveys"}
    ensures r["client"] == JStr(client) && r["campaign_urn"] == campaignUrn
    ensures r["campaign_creation_timestamp"] == campaignCreationTimestamp && r["surveys"] == JStr(surveysText)
    // explicit credentials are sent as given when either is true
    ensures Truthy(user) || Truthy(hashedpass) ==> r["user"] == user && r["password"] == hashedpass
    // otherwise the cached username and hashed password, when both are cached, even if a token is too
    ensures !Truthy(user) && !Truthy(hashedpass) && c.IsAuthenticated(false) ==>
              r["user"] == c.username.value && r["password"] == c.hashedPass.value
    ensures !c.IsAuthenticated(false) ==> r["user"] == user && r["password"] == hashedpass
  {
    AddLogin(c, map["user" := user, "password" := hashedpass, "client" := JStr(client),
                    "campaign_urn" := campaignUrn, "campaign_creation_timestamp" := campaignCreationTimestamp,
                    "surveys" := JStr(surveysText)], false)
  }

  /** survey_response_read as written: the required keys without
      `auth_token`, then kwargs, then the cached credentials. The `auth_token`
      argument has no effect (SurveyResponseReadIgnoresToken). */
  function SurveyResponseReadParams(c: Credentials, client: string, authToken: Json, campaignUrn: Json,
                                    outputFormat: Json, columnList: Json, userList: Json, kwargs: Params): (r: Params)
    requires "auth_token" !in kwargs && "campaign_urn" !in kwargs && "output_format" !in kwargs
    requires "column_list" !in kwargs && "user_list" !in kwargs
    ensures r.Keys <= {"campaign_urn", "output_format", "column_list", "user_list", "client"}
                      + kwargs.Keys + LoginKeys
    ensures "campaign_urn" in r && r["campaign_urn"] == campaignUrn
    ensures "output_format" in r && r["output_format"] == outputFormat
    ensures "column_list" in r && r["column_list"] == columnList && "user_list" in r && r["user_list"] == userList
    ensures "client" in r && r["client"] == if "client" in kwargs then kwargs["client"] else JStr(client)
    ensures forall k :: k in kwargs && (k !in LoginKeys || Supplied(kwargs, k)) ==> k in r && r[k] == kwargs[k]
    // a token is sent exactly when one is cached, and it is the cached one
    ensures "auth_token" in r <==> c.token.Some?
    ensures c.token.Some? ==> r["auth_token"] == c.token.value
    // with no token cached, the hashed credentials are the fallback
    ensures c.token.None? && c.IsAuthenticated(false) && !Supplied(kwargs, "user") && !Supplied(kwargs, "password") ==>
              "user" in r && "password" in r && r["user"] == c.username.value && r["password"] == c.hashedPass.value
    // otherwise `user` and `password` are exactly what kwargs gave
    ensures !(c.token.None? && c.IsAuthenticated(false) && !Supplied(kwargs, "user") && !Supplied(kwargs, "password")) ==>
              SameEntry(kwargs, r, "user") && SameEntry(kwargs, r, "password")
  {
    KeysDistinct();
    var base := SurveyResponseReadBaseAsWritten(campaignUrn, outputFormat, columnList, userList, client);
    assert "user" !in base && "password" !in base;
    KwargsMerge(c, base, kwargs, true);
    NoTokenMerge(c, base + kwargs, kwargs);
    AddLogin(c, base + kwargs, true)
  }

  /** survey_response_read with the corrected dict SurveyResponseReadBase,
      which carries the `auth_token` argument. */
  function SurveyResponseReadParamsCorrected(c: Credentials, client: string, authToken: Json, campaignUrn: Json,
                                             outputFormat: Json, columnList: Json, userList: Json,
                                             kwargs: Params): (r: Params)
    requires "auth_token" !in kwargs && "campaign_urn" !in kwargs && "output_format" !in kwargs
    requires "column_list" !in kwargs && "user_list" !in kwargs
    ensures r.Keys <= {"auth_token", "campaign_urn", "output_format", "column_list", "user_list", "client"}
                      + kwargs.Keys + LoginKeys
    ensures "campaign_urn" in r && r["campaign_urn"] == campaignUrn
    ensures "output_format" in r && r["output_format"] == outputFormat
    ensures "column_list" in r && r["column_list"] == columnList && "user_list" in r && r["user_list"] == userList
    ensures "client" in r && r["client"] == if "client" in kwargs then kwargs["client"] else JStr(client)
    ensures forall k :: k in kwargs && (k !in LoginKeys || Supplied(kwargs, k)) ==> k in r && r[k] == kwargs[k]
    ensures "auth_token" in r
    ensures Truthy(authToken) ==> r["auth_token"] == authToken
    ensures !Truthy(authToken) && c.token.Some? ==> r["auth_token"] == c.token.value
    ensures !Truthy(authToken) && c.token.None? ==> r["auth_token"] == authToken
    // with no token cached, the hashed credentials are the fallback
    ensures c.token.None? && c.IsAuthenticated(false) && !Supplied(kwargs, "user") && !Supplied(kwargs, "password") ==>
              "user" in r && "password" in r && r["user"] == c.username.value && r["password"] == c.hashedPass.value
    // otherwise `user` and `password` are exactly what kwargs gave
    ensures !(c.token.None? && c.IsAuthenticated(false) && !Supplied(kwargs, "user") && !Supplied(kwargs, "password")) ==>
              SameEntry(kwargs, r, "user") && SameEntry(kwargs, r, "password")
  {
    KeysDistinct();
    var base := SurveyResponseReadBase(authToken, campaignUrn, outputFormat, columnList, userList, client);
    assert "user" !in base && "password" !in base && "auth_token" in base && base["auth_token"] == authToken;
    KwargsMerge(c, base, kwargs, true);
    TokenMerge(c, base + kwargs, authToken, kwargs);
    AddLogin(c, base + kwargs, true)
  }

  /** mobility_read: auth_token, date and client, then kwargs, then the cached token. */
  function MobilityReadParams(c: Credentials, client: string, authToken: Json, date: Json, kwargs: Params): (r: Params)
    requires "auth_token" !in kwargs && "date" !in kwargs
    ensures r.Keys <= {"auth_token", "date", "client"} + kwargs.Keys + LoginKeys
    ensures "date" in r && r["date"] == date
    ensures "client" in r && r["client"] == if "client" in kwargs then kwargs["client"] else JStr(client)
    ensures forall k :: k in kwargs && (k !in LoginKeys || Supplied(kwargs, k)) ==> k in r && r[k] == kwargs[k]
    ensures "auth_token" in r
    ensures Truthy(authToken) ==> r["auth_token"] == authToken
    ensures !Truthy(authToken) && c.token.Some? ==> r["auth_token"] == c.token.value
    ensures !Truthy(authToken) && c.token.None? ==> r["auth_token"] == authToken
    // with no token cached, the hashed credentials are the fallback
    ensures c.token.None? && c.IsAuthenticated(false) && !Supplied(kwargs, "user") && !Supplied(kwargs, "password") ==>
              "user" in r && "password" in r && r["user"] == c.username.value && r["password"] == c.hashedPass.value
    // otherwise `user` and `password` are exactly what kwargs gave
    ensures !(c.token.None? && c.IsAuthenticated(false) && !Supplied(kwargs, "user") && !Supplied(kwargs, "password")) ==>
              SameEntry(kwargs, r, "user") && SameEntry(kwargs, r, "password")
  {
    KeysDistinct();
    var base := map["auth_token" := authToken, "date" := date, "client" := JStr(client)];
    assert "user" !in base && "password" !in base && "auth_token" in base && base["auth_token"] == authToken;
    KwargsMerge(c, base, kwargs, true);
    TokenMerge(c, base + kwargs, authToken, kwargs);
    AddLogin(c, base + kwargs, true)
  }

  /** `if v: p[k] = v`, the way mobility_dates_read adds an optional key. */
  function WithOptional(p: Params, k: string, v: Json): (r: Params)
    ensures Truthy(v) ==> k in r && r[k] == v
    ensures !Truthy(v) ==> r == p
    ensures r.Keys <= p.Keys + {k} && forall j :: j in p && j != k ==> j in r && r[j] == p[j]
  {
    if Truthy(v) then p[k := v] else p
  }

  /** The three optional keys of mobility_dates_read, each set only when its
      argument is true. */
  function WithDates(p: Params, startDate: Json, endDate: Json, username: Json): (o: Params)
    ensures o.Keys <= p.Keys + {"start_date", "end_date", "username"}
    ensures forall k :: k in p && k != "start_date" && k != "end_date" && k != "username" ==> k in o && o[k] == p[k]
    ensures "start_date" !in p ==> ("start_date" in o <==> Truthy(startDate))
    ensures Truthy(startDate) ==> "start_date" in o && o["start_date"] == startDate
    ensures "end_date" !in p ==> ("end_date" in o <==> Truthy(endDate))
    ensures Truthy(endDate) ==> "end_date" in o && o["end_date"] == endDate
    ensures "username" !in p ==> ("username" in o <==> Truthy(username))
    ensures Truthy(username) ==> "username" in o && o["username"] == username
  {
    WithOptional(WithOptional(WithOptional(p, "start_date", startDate), "end_date", endDate), "username", username)
  }

  /** Keyword arguments merged over a base dict reach the request, except a
      credential key whose value is false. */
  lemma KwargsMerge(c: Credentials, base: Params, kwargs: Params, useToken: bool)
    ensures var r := AddLogin(c, base + kwargs, useToken);
            forall k :: k in kwargs && (k !in LoginKeys || Supplied(kwargs, k)) ==> k in r && r[k] == kwargs[k]
  {
    var p := base + kwargs;
    assert forall k :: k in kwargs ==> k in p && p[k] == kwargs[k];
  }

  /** What the token-mode merge does to a dict without `auth_token` whose
      `user` and `password` entries are those of kwargs. */
  lemma NoTokenMerge(c: Credentials, p: Params, kwargs: Params)
    requires "auth_token" !in p
    requires SameEntry(kwargs, p, "user") && SameEntry(kwargs, p, "password")
    ensures var r := AddLogin(c, p, true);
            ("auth_token" in r <==> c.token.Some?)
            && (c.token.Some? ==> r["auth_token"] == c.token.value)
            && (c.token.None? && c.IsAuthenticated(false) && !Supplied(kwargs, "user") && !Supplied(kwargs, "password") ==>
                  "user" in r && "password" in r && r["user"] == c.username.value && r["password"] == c.hashedPass.value)
            && (!(c.token.None? && c.IsAuthenticated(false) && !Supplied(kwargs, "user") && !Supplied(kwargs, "password")) ==>
                  SameEntry(kwargs, r, "user") && SameEntry(kwargs, r, "password"))
  {
  }

  /** The keys the facade methods write themselves are neither credential
      keys nor `client`. */
  lemma KeysDistinct()
    ensures "output_format" !in LoginKeys && "campaign_urn" !in LoginKeys && "column_list" !in LoginKeys
    ensures "user_list" !in LoginKeys && "date" !in LoginKeys && "client" !in LoginKeys
    ensures "start_date" !in LoginKeys && "end_date" !in LoginKeys && "username" !in LoginKeys
    ensures "output_format" != "client" && "campaign_urn" != "client" && "column_list" != "client"
    ensures "user_list" != "client" && "date" != "client"
    ensures "start_date" != "client" && "end_date" != "client" && "username" != "client"
  {
  }

  /** The keys mobility_dates_read sends, and its optional entries. */
  lemma MobilityDatesKeys(c: Credentials, client: string, authToken: Json, startDate: Json,
                          endDate: Json, username: Json, kwargs: Params)
    requires "auth_token" !in kwargs && "start_date" !in kwargs && "end_date" !in kwargs && "username" !in kwargs
    ensures var r := AddLogin(c, WithDates(map["auth_token" := authToken, "client" := JStr(client)] + kwargs,
                                           startDate, endDate, username), true);
            r.Keys <= {"auth_token", "client", "start_date", "end_date", "username"} + kwargs.Keys + LoginKeys
            && ("start_date" in r <==> Truthy(startDate)) && (Truthy(startDate) ==> r["start_date"] == startDate)
            && ("end_date" in r <==> Truthy(endDate)) && (Truthy(endDate) ==> r["end_date"] == endDate)
            && ("username" in r <==> Truthy(username)) && (Truthy(username) ==> r["username"] == username)
  {
    KeysDistinct();
    var merged := map["auth_token" := authToken, "client" := JStr(client)] + kwargs;
    assert merged.Keys == {"auth_token", "client"} + kwargs.Keys;
    var optional := WithDates(merged, startDate, endDate, username);
    var r := AddLogin(c, optional, true);
    assert r.Keys <= optional.Keys + LoginKeys;
  }

  /** The entries mobility_dates_read takes from kwargs. */
  lemma MobilityDatesKwargs(c: Credentials, client: string, authToken: Json, startDate: Json,
                            endDate: Json, username: Json, kwargs: Params)
    requires "auth_token" !in kwargs && "start_date" !in kwargs && "end_date" !in kwargs && "username" !in kwargs
    ensures var r := AddLogin(c, WithDates(map["auth_token" := authToken, "client" := JStr(client)] + kwargs,
                                           startDate, endDate, username), true);
            "client" in r && r["client"] == (if "client" in kwargs then kwargs["client"] else JStr(client))
            && forall k :: k in kwargs && (k !in LoginKeys || Supplied(kwargs, k)) ==> k in r && r[k] == kwargs[k]
  {
    var merged := map["auth_token" := authToken, "client" := JStr(client)] + kwargs;
    KeysDistinct();
    var optional := WithDates(merged, startDate, endDate, username);
    assert forall k :: k in kwargs ==> k in optional && optional[k] == kwargs[k];
    assert "client" in optional && optional["client"] == (if "client" in kwargs then kwargs["client"] else JStr(client));
  }

  /** mobility_dates_read: auth_token and client, then kwargs, then
      start_date, end_date and username only when true, then the cached token. */
  function MobilityDatesReadParams(c: Credentials, client: string, authToken: Json, startDate: Json,
                                   endDate: Json, username: Json, kwargs: Params): (r: Params)
    requires "auth_token" !in kwargs && "start_date" !in kwargs && "end_date" !in kwargs && "username" !in kwargs
    ensures r.Keys <= {"auth_token", "client", "start_date", "end_date", "username"} + kwargs.Keys + LoginKeys
    // the optional keys are present exactly when their argument is true
    ensures ("start_date" in r <==> Truthy(startDate)) && (Truthy(startDate) ==> r["start_date"] == startDate)
    ensures ("end_date" in r <==> Truthy(endDate)) && (Truthy(endDate) ==> r["end_date"] == endDate)
    ensures ("username" in r <==> Truthy(username)) && (Truthy(username) ==> r["username"] == username)
    ensures "client" in r && r["client"] == if "client" in kwargs then kwargs["client"] else JStr(client)
    ensures forall k :: k in kwargs && (k !in LoginKeys || Supplied(kwargs, k)) ==> k in r && r[k] == kwargs[k]
    ensures "auth_token" in r
    ensures Truthy(authToken) ==> r["auth_token"] == authToken
    ensures !Truthy(authToken) && c.token.Some? ==> r["auth_token"] == c.token.value
    ensures !Truthy(authToken) && c.token.None? ==> r["auth_token"] == authToken
    // with no token cached, the hashed credentials are the fallback
    ensures c.token.None? && c.IsAuthenticated(false) && !Supplied(kwargs, "user") && !Supplied(kwargs, "password") ==>
              "user" in r && "password" in r && r["user"] == c.username.value && r["password"] == c.hashedPass.value
    // otherwise `user` and `password` are exactly what kwargs gave
    ensures !(c.token.None? && c.IsAuthenticated(false) && !Supplied(kwargs, "user") && !Supplied(kwargs, "password")) ==>
              SameEntry(kwargs, r, "user") && SameEntry(kwargs, r, "password")
  {
    var merged := map["auth_token" := authToken, "client" := JStr(client)] + kwargs;
    var optional := WithDates(merged, startDate, endDate, username);
    assert SameEntry(kwargs, optional, "user") && SameEntry(kwargs, optional, "password");
    KeysDistinct();
    TokenMerge(c, optional, authToken, kwargs);
    MobilityDatesKeys(c, client, authToken, startDate, endDate, username, kwargs);
    MobilityDatesKwargs(c, client, authToken, startDate, endDate, username, kwargs);
    AddLogin(c, optional, true)
  }

  /** What the token-mode merge does to a dict whose `auth_token` is the
      argument and whose `user` and `password` entries are those of kwargs. */
  lemma TokenMerge(c: Credentials, p: Params, authToken: Json, kwargs: Params)
    requires "auth_token" in p && p["auth_token"] == authToken
    requires SameEntry(kwargs, p, "user") && SameEntry(kwargs, p, "password")
    ensures var r := AddLogin(c, p, true);
            "auth_token" in r
            && (Truthy(authToken) ==> r["auth_token"] == authToken)
            && (!Truthy(authToken) && c.token.Some? ==> r["auth_token"] == c.token.value)
            && (!Truthy(authToken) && c.token.None? ==> r["auth_token"] == authToken)
            && (c.token.None? && c.IsAuthenticated(false) && !Supplied(kwargs, "user") && !Supplied(kwargs, "password") ==>
                  "user" in r && "password" in r && r["user"] == c.username.value && r["password"] == c.hashedPass.value)
            && (!(c.token.None? && c.IsAuthenticated(false) && !Supplied(kwargs, "user") && !Supplied(kwargs, "password")) ==>
                  SameEntry(kwargs, r, "user") && SameEntry(kwargs, r, "password"))
  {
  }

  /** The dict literal survey_response_read builds, as written: its
      `auth_token` argument is accepted but never put into it. */
  function SurveyResponseReadBaseAsWritten(campaignUrn: Json, outputFormat: Json, columnList: Json,
                                           userList: Json, client: string): (p: Params)
    ensures "auth_token" !in p
  {
    map["campaign_urn" := campaignUrn, "output_format" := outputFormat, "column_list" := columnList,
        "user_list" := userList, "client" := JStr(client)]
  }

  /** The dict survey_response_read evidently means to build: the required
      keys, with the caller's `auth_token` among them as in campaign_read and
      mobility_read. */
  function SurveyResponseReadBase(authToken: Json, campaignUrn: Json, outputFormat: Json, columnList: Json,
                                  userList: Json, client: string): (p: Params)
    ensures p.Keys == {"auth_token", "campaign_urn", "output_format", "column_list", "user_list", "client"}
    ensures p["auth_token"] == authToken
    ensures p - {"auth_token"} == SurveyResponseReadBaseAsWritten(campaignUrn, outputFormat, columnList, userList, client)
  {
    SurveyResponseReadBaseAsWritten(campaignUrn, outputFormat, columnList, userList, client)["auth_token" := authToken]
  }
}
