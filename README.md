# Ohmage client: request assembly and response classification

A Dafny model of the logic in the Ohmage facade of the ohmage Python client
(`ohmagekit/clients/ohmage.py`). That logic covers four things:

- the credential cache that `login` fills in: username, hashed password and token;
- `is_authenticated`;
- how `_add_login_to_params` merges the cached credentials into a request's parameters;
- the parameter dicts each endpoint method builds, and how a server reply becomes a result or an exception (`_perform_request`, `_handle_response`, `OhmageApiException.codes`).

Files and modules:

- `pyvalues.dfy` (`PyValues`): the Python values involved, as a `Json` datatype (None, bool, int, str, list, dict). Also Python truthiness (`Truthy`), `obj[key]` lookup (`Lookup`), the exceptions the code can raise (`PyError`), and a `Result` of a value or an exception.
- `pyint.dfy` (`PyInt`): Python's `int()` as `codes()` applies it to the server's zero-padded decimal code strings (`"0200"`), with the decimal rendering as its partner.
- `responses.dfy` (`Responses`): the HTTP status check of `BaseApi._perform_request` and the Ohmage override of it, `_handle_response`, and `codes()`.
- `ohmage.dfy` (`Ohmage`): the handle as a class `OhmageApi` whose three credential attributes are `Option` fields, with `None` meaning the attribute was never assigned (`hasattr` false). `Login` assigns those fields. `AddLoginToParams` updates a `ParamDict` (a mutable dict) in place. Each facade method builds its dict step by step and returns the `Request` it would send. Each method is specified by a pure function (`AddLogin`, `LoginSpec`, `CampaignReadParams`, …), and the properties are stated on those functions.
- `ohmage_props.dfy` (`OhmageProps`): properties that relate several operations. Examples: login, then a read that uses the cached token; token-only login does not authenticate; merging credentials twice changes nothing more.

The network and JSON parsing are parameters:

- a reply is an `HttpReply`: the status string, the body, and what `simplejson.loads(body)` returns (`None` when it raises);
- `Login` takes the transport as a function from a `Request` to an `HttpReply`.

Where the code and its own docstrings and comments differ, the model follows the code:

- The docstring of `login` (ohmagekit/clients/ohmage.py:48-54) says a failed authentication raises OhmageApiException with code 0200. That holds only when the server answers with HTTP status "200" and a failure result. A reply with any other status raises HTTPException, because the override of `_perform_request` (ohmagekit/clients/ohmage.py:290-305) never reinterprets a failed reply, though its comments at lines 298-299 say it does (see Findings). `Login` and `LoginSpec` send their requests through `Responses.PerformRequestAsWritten`.
- The docstring of `survey_response_read` lists `auth_token` as a parameter it sends, but the dict it builds has no such key (see Findings). `SurveyResponseReadParams` and `OhmageApi.SurveyResponseRead` model the dict as written. The corrected dict is a separate function, `SurveyResponseReadParamsCorrected`, which the facade does not use.
- Error codes stay strings inside the exception. They become integers only when `codes()` is called.
- `is_authenticated(forToken=True)` also requires a cached username, so a token-only login does not count, although the docstring at ohmagekit/clients/ohmage.py:67-73 speaks only of stored credentials.

Python binds a method's named parameters before `**kwargs`, so `kwargs` never holds those names. For example, `campaign_read` never finds `auth_token` or `output_format` in its `kwargs`. The facade methods state this as a `requires`.

## Model

| member | source | states |
|---|---|---|
| `Ohmage.AddLogin` | ohmagekit/clients/ohmage.py:79-88 | only `auth_token`, `user` and `password` can be added, and existing keys are never dropped; no other entry changes; a true caller-supplied credential is never replaced; nothing cached means no change; with `useToken` and a cached token, `auth_token` becomes the cached token unless the caller's is true, and `user`/`password` stay as they were even if hashed credentials are cached; otherwise, with a cached username and hashed password, both are written when the caller gave neither, and if the caller gave either the map is unchanged |
| `Ohmage.OhmageApi.AddLoginToParams` | ohmagekit/clients/ohmage.py:79-88 | updates the dict in place to exactly `AddLogin` of the cached credentials and the old contents |
| `Ohmage.OhmageApi.IsAuthenticated` | ohmagekit/clients/ohmage.py:74-77 | true exactly when a username was assigned and, for the mode, a token (`forToken`) or a hashed password (otherwise); the values themselves are not checked |
| `OhmageProps.AddLoginIdempotent` | ohmagekit/clients/ohmage.py:79-88 | merging the cached credentials a second time changes nothing |
| `OhmageProps.AuthenticatedRequestCarriesCredential` | ohmagekit/clients/ohmage.py:74-88 | a handle that `is_authenticated` for the mode, with true cached values, always sends a true credential of that mode |
| `Ohmage.AuthRequest` | ohmagekit/clients/ohmage.py:33-45 | `user_auth`/`user_auth_token` POST exactly `user`, `password` and the handle's `client` |
| `Ohmage.LoginSpec` | ohmagekit/clients/ohmage.py:57-64 | a disabled step leaves its fields unchanged; a failed `user_auth` request (through `_perform_request` as written) changes nothing and raises its exception; a `user_auth` result without `hashed_password` leaves only the username cached and raises; once the hashed step completes, the username and the reply's `hashed_password` stay cached whatever the token step does; when the token step is reached, a failed `user_auth_token` request or a result without `token` raises that exception and leaves the token as it was, and otherwise the reply's `token` is cached and login completes |
| `Ohmage.OhmageApi.Login` | ohmagekit/clients/ohmage.py:47-64 | the new credential fields and the outcome are those of `LoginSpec` from the old fields |
| `Ohmage.OhmageApi.constructor` | ohmagekit/clients/ohmage.py:25-27 | a new handle keeps server, prefix and client, and caches no credential |
| `OhmageProps.TokenOnlyLoginNotAuthenticated` | ohmagekit/clients/ohmage.py:62-77 | a token-only login on a fresh handle caches no username, so the handle is authenticated in neither mode |
| `OhmageProps.FullLogin` | ohmagekit/clients/ohmage.py:47-77 | whatever was cached before, a login whose two requests succeed caches the username, the hashed password and the token, and the handle is authenticated in both modes |
| `OhmageProps.HashedLoginMissingKey` | ohmagekit/clients/ohmage.py:57-60 | a `user_auth` reply without `hashed_password` leaves only the username cached and raises KeyError before any token request |
| `OhmageProps.LoginHttpErrorRaises` | ohmagekit/clients/ohmage.py:54-58 | when `user_auth` gets a status other than `"200"`, login raises HTTPException with that status and body, whatever the body holds, and no credential changes |
| `OhmageProps.RejectedLogin` | ohmagekit/clients/ohmage.py:54-60 | when user_auth answers with status `"200"` and a failure result, login raises OhmageApiException carrying exactly the reply's `errors`, and no credential changes |
| `OhmageProps.LoginThenCampaignReadSendsToken` | ohmagekit/clients/ohmage.py:123-132 | after a successful login, `campaign_read` without an explicit token sends the cached token, whatever the other keyword arguments are |
| `Ohmage.CampaignReadParams` | ohmagekit/clients/ohmage.py:123-132 | `output_format` is the argument; `client` and every non-credential key come from kwargs when given there (kwargs override the required keys); a true explicit token is sent, and otherwise the cached token; no keys beyond the required keys, kwargs and the credential keys; with no token cached, a false explicit token is sent as given, and the cached username and hashed password are added when kwargs gave neither a true `user` nor a true `password`; otherwise `user` and `password` are the caller's, unchanged |
| `Ohmage.OhmageApi.CampaignRead` | ohmagekit/clients/ohmage.py:106-134 | POSTs to `/campaign/read` the parameters `CampaignReadParams` gives for the cached credentials |
| `Ohmage.SurveyUploadParams` | ohmagekit/clients/ohmage.py:142-152 | the six keys; explicit credentials are sent as given when either is true; otherwise the cached username and hashed password when both are cached, even if a token is cached too |
| `Ohmage.OhmageApi.SurveyUpload` | ohmagekit/clients/ohmage.py:140-154 | a multipart POST to `/survey/upload` of `SurveyUploadParams` |
| `Ohmage.SurveyResponseReadBaseAsWritten` | ohmagekit/clients/ohmage.py:197-203 | the dict as written has no `auth_token` key |
| `Ohmage.SurveyResponseReadBase` | ohmagekit/clients/ohmage.py:197-203 | the corrected dict: the written keys plus `auth_token` set to the argument |
| `Ohmage.SurveyResponseReadParams` | ohmagekit/clients/ohmage.py:197-208 | the required keys as given, `client` and non-credential keys overridden by kwargs; `auth_token` is present exactly when a token is cached, and then holds the cached token; with no token cached, the cached username and hashed password are sent when the caller gave neither; otherwise `user` and `password` are the caller's, unchanged |
| `Ohmage.OhmageApi.SurveyResponseRead` | ohmagekit/clients/ohmage.py:156-210 | POSTs to `/survey_response/read` the `SurveyResponseReadParams` |
| `OhmageProps.SurveyResponseReadDropsToken` | ohmagekit/clients/ohmage.py:156-208 | as written, a true `auth_token` argument never reaches the request when no token is cached |
| `OhmageProps.SurveyResponseReadIgnoresToken` | ohmagekit/clients/ohmage.py:156-208 | as written, the request is the same whatever `auth_token` argument is given |
| `Ohmage.SurveyResponseReadParamsCorrected` | ohmagekit/clients/ohmage.py:197-208 | with the corrected dict: the explicit token if true, else the cached one, with the other keys as in `SurveyResponseReadParams`; with no token cached, a false explicit token is sent as given, and the cached username and hashed password are added when kwargs gave neither a true `user` nor a true `password`; otherwise `user` and `password` are the caller's, unchanged |
| `OhmageProps.SurveyResponseReadSendsToken` | ohmagekit/clients/ohmage.py:156-208 | with the corrected dict, a true `auth_token` argument is the token sent |
| `Ohmage.MobilityReadParams` | ohmagekit/clients/ohmage.py:236-245 | `date` as given, `client` and non-credential keys overridden by kwargs, the explicit or else the cached token; with no token cached, a false explicit token is sent as given, and the cached username and hashed password are added when kwargs gave neither a true `user` nor a true `password`; otherwise `user` and `password` are the caller's, unchanged |
| `Ohmage.OhmageApi.MobilityRead` | ohmagekit/clients/ohmage.py:216-247 | POSTs to `/mobility/read` the `MobilityReadParams` |
| `Ohmage.WithOptional` | ohmagekit/clients/ohmage.py:277-279 | a key is set to the value exactly when the value is true; otherwise the map is unchanged |
| `Ohmage.ParamDict.SetIfTrue` | ohmagekit/clients/ohmage.py:277-279 | the dict changes in place to exactly `WithOptional` of its old contents |
| `Ohmage.WithDates` | ohmagekit/clients/ohmage.py:277-279 | each of `start_date`, `end_date` and `username` holds its argument when that argument is true; such a key absent before is present exactly when its argument is true; no other entry changes |
| `Ohmage.MobilityDatesReadParams` | ohmagekit/clients/ohmage.py:269-282 | `start_date`, `end_date` and `username` are present iff their argument is true, and then hold it; `client` and non-credential keys come from kwargs when given; the explicit or else the cached token; no keys beyond those; with no token cached, a false explicit token is sent as given, and the cached username and hashed password are added when kwargs gave neither a true `user` nor a true `password`; otherwise `user` and `password` are the caller's, unchanged |
| `Ohmage.OhmageApi.MobilityDatesRead` | ohmagekit/clients/ohmage.py:249-284 | POSTs to `/mobility/dates/read` the `MobilityDatesReadParams` |
| `Responses.HandleResponse` | ohmagekit/clients/ohmage.py:307-321 | a body starting with the XML declaration is returned unchanged; otherwise a result is always the decoded object and only one whose `result` is `"success"`; a decoded dict whose `result` is not `"success"` raises OhmageApiException with its `errors`, and that is the only way that exception arises; a body that does not decode raises |
| `Responses.BaseOutcome` | base.py:43-46 | a status other than `"200"` raises HTTPException with status and body; otherwise the body goes to `_handle_response` |
| `Responses.PerformRequestAsWritten` | ohmagekit/clients/ohmage.py:290-305 | as written, the override always behaves as the base method |
| `Responses.PerformRequest` | ohmagekit/clients/ohmage.py:295-305 | a failed reply whose body is a dict with `result` and `errors` raises OhmageApiException with those errors; any other failed reply re-raises the original HTTPException; a `"200"` reply goes to `_handle_response` |
| `Responses.PerformRequestDiscrepancy` | ohmagekit/clients/ohmage.py:297-305 | on a `"401"` reply carrying an error list, the code as written raises HTTPException where the intended code raises OhmageApiException |
| `Responses.AsWrittenNeverReinterprets` | ohmagekit/clients/ohmage.py:297-305 | as written, no failed HTTP status ever raises OhmageApiException |
| `Responses.PerformRequestAgrees` | ohmagekit/clients/ohmage.py:295-305 | the written and the corrected behaviour agree on `"200"` replies and on bodies that are not error dicts |
| `Responses.ItemCode` | ohmagekit/clients/ohmage.py:347 | `int(x['code'])`: the code's integer value for a dict with a `code`, KeyError without one, TypeError for a non-dict |
| `Responses.CodesOf` | ohmagekit/clients/ohmage.py:347 | succeeds iff every entry converts; then the list has the entries' length and order, each element that entry's code; otherwise it raises the first failing entry's exception |
| `Responses.Codes` | ohmagekit/clients/ohmage.py:343-347 | over a list, the codes of its entries; an empty str or dict gives `[]`; every other non-list value raises |
| `Responses.CodesOfEntries` | ohmagekit/clients/ohmage.py:343-347 | for server-written entries (four-digit zero-padded codes), `codes()` gives exactly the numeric codes, in order |
| `Responses.AuthFailureCode` | samplekit.py:25 | an entry with code `"0200"` puts 200 among the codes, the test the sample client makes |
| `Responses.FailedLoginReply` | ohmagekit/clients/ohmage.py:316-319 | the body `{"result":"failure","errors":[{"code":"0200",…}]}` raises OhmageApiException whose `codes()` is `[200]` |
| `PyInt.IntOf` | ohmagekit/clients/ohmage.py:347 | `int()` of a str reads it as an integer literal or raises ValueError; of an int it is the value; of a bool it is 1 or 0; None, a list or a dict raise TypeError |
| `PyInt.DecimalRoundTrip` | ohmagekit/clients/ohmage.py:347 | reading back the decimal rendering of `n` gives `n` |
| `PyInt.LeadingZeros` | ohmagekit/clients/ohmage.py:347 | leading zeros do not change a digit string's value |
| `PyInt.ParsePaddedCode` | ohmagekit/clients/ohmage.py:347 | `int()` of a zero-padded decimal code is its number, for every padding width |
| `PyInt.ParseNegative` | ohmagekit/clients/ohmage.py:347 | a minus sign before any non-empty digit string reads as the negated value of the digits |
| `PyInt.ParseIgnoresSpace` | ohmagekit/clients/ohmage.py:347 | any run of whitespace before and any after the literal is ignored |
| `PyInt.AuthCodeParses` | ohmagekit/clients/ohmage.py:54 | `int("0200") == 200` |

## Left out

- HTTP transport (base.py:22-41): httplib2, urllib2 and multipart encoding are not modelled. A reply is a parameter (`HttpReply`). The status check that follows the transport is modelled in `BaseOutcome`. In the multipart branch, base.py:38-44 refers to `content`, which is unbound when urllib2 raises. That path is not modelled.
- JSON decoding and encoding: `simplejson.loads` is replaced by the decoded value carried in `HttpReply`. `survey_upload`'s `simplejson.dumps(surveys)` is replaced by its result text, `surveysText`.
- Floats in decoded values and in `int()` are not modelled.
- `int()` of a str follows Python 2 only in part: the model accepts surrounding ASCII whitespace, one optional sign and ASCII digits. Whitespace between the sign and the digits, and non-ASCII digits in unicode strings, are rejected by the model, while Python 2 accepts them.
- `config_read` (ohmagekit/clients/ohmage.py:94-100) sends the caller's keyword arguments unchanged by GET. It has no parameter logic and is not modelled.
- `OhmageApiException.__str__`/`__unicode__` (string formatting) are not modelled. `errors()` is not modelled as a method: the instance attribute `errors` set in `__init__` shadows it. The model reads the exception's `errors` field instead.
- The `Survey`/`Response` records (ohmagekit/clients/ohmage.py:355-380) are passive dicts with random uuid4 keys and are not modelled.
- The OAuth clients (clients/oauth.py, oauth.py), the BodyMedia and FitBit facades, samplekit.py and setup.py are not part of this model.
- `is_authenticated(forToken)` and `login`'s `doHashedLogin`/`doTokenLogin` accept any Python value and test its truthiness. The model takes `bool`.
- The facade methods (`CampaignRead`, `SurveyUpload`, `SurveyResponseRead`, `MobilityRead`, `MobilityDatesRead`) return the `Request` they would hand to `_perform_request` and do not compose it with the reply handling. In the source they return `_perform_request`'s result; that part is modelled on its own by `Responses.PerformRequestAsWritten` and is composed with a transport only in `Login`.
- `HttpException`: BaseApi.HTTPException also carries the name of the raising class (`self.__class__.__name__`, base.py:44), always "OhmageApi" here. The model keeps only the status and the body.
- Concurrency: the handle is modelled single-threaded, as it is used.

## Findings

| source | as written | input that shows it | evidently intended | confidence | as-written member | corrected member |
|---|---|---|---|---|---|---|
| ohmagekit/clients/ohmage.py:303 | the handler raises `OhmageApiException(result['errors'])`, but `result` is not defined there; the NameError is caught by the bare `except` at line 304, which re-raises the original HTTPException, so a failed reply is never reinterpreted | status `"401"` with a body decoding to `{"result":"failure","errors":[…]}` (`Responses.PerformRequestDiscrepancy`) | the reinterpretation the comment at lines 298-299 describes: read `parsed['errors']` instead of `result['errors']`, and raise OhmageApiException outside the `try` (or narrow the bare `except` to the parse and assert failures), since the bare `except` would otherwise catch that exception too and re-raise the HTTPException | high; not executed | `Responses.PerformRequestAsWritten` | `Responses.PerformRequest` |
| ohmagekit/clients/ohmage.py:197-203 | `survey_response_read` accepts `auth_token` but never puts it into the dict, so an explicit token is dropped | `auth_token="abc"` with no token cached: the request has no `auth_token` (`OhmageProps.SurveyResponseReadDropsToken`) | `'auth_token': auth_token` among the required keys, as in `campaign_read` and `mobility_read` | high; not executed | `Ohmage.SurveyResponseReadParams` | `Ohmage.SurveyResponseReadParamsCorrected` |
