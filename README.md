# pyattask core, modelled in Dafny

pyattask is a Python binding for the AtTask (Workfront) REST API. This project
models its core:

- **The session.** There is one process-wide session (`create_session`, `get_session`).
  It holds the API URL and the site's base URL, which is the URL cut before
  `attask/api`. It also holds the authenticated user's id and the
  `requests.Session` that requests go through. `is_authenticated` sends a probe GET
  to the base URL formatted with a test path. A base URL without braces has no
  `{req}` placeholder, so the GET goes to the base URL itself. `login` returns
  at once when that probe succeeds. Otherwise, with `saml=False`, it calls
  `_authenticate_basic`, which always raises NotImplementedError. With
  `saml=True`, it first GETs the site's front page through the session's own
  object. It then runs the two-hop SAML exchange on that answer:
  - the front page's SAML form goes to the identity provider with NTLM
    credentials;
  - the provider's form goes back to the site.

  A `userid` header on the final answer makes the second new session object the
  session's own, and its cookies are saved.
- **The resource-object protocol.** `from_json` keeps the payload keys a resource
  kind lists (compared case-sensitively) and stores them lower-cased. Objects are
  attribute maps with a dirty flag. `search` and `get` call `_search` and `_get`,
  which are the guarded REST calls.
  `_rest_transaction` classifies each response, checking the verb, then the status,
  then an `error` key, then a `data` key.
- **The `@authenticated` guard**, which probes the session before every guarded call.
- **The four resource kinds** User, Task, Project and Issue: their endpoint,
  objCode and field list. `User.current_user` is also modelled.

## How the model is built

- `values.dfy` and `errors.dfy` hold decoded JSON, `Option`, the exceptions (the
  binding's own and the Python built-ins that escape) and `Result`.
- `http.dfy` holds requests and responses. The remote side is an *oracle*, a
  function from the request's position in the log and the request itself to the
  response. The `Network` object keeps the log of requests sent, counts the
  `requests.Session` objects created and records cookie-jar saves.
- `session.dfy` states the probe, `login` and the SAML exchange twice:
  - as a function over a `World` value (the log, the counters, the user id and
    the current session object), and the properties are lemmas about these functions;
  - as a method on the `AtTaskSession` class, each proved to change the
    network and the session exactly as its function says.

  Form extraction is a function and a method proved equal to it. `BaseUrl`,
  `CheckAuthResponse`, `FirstNamed` and `CollectValues` are only functions.
  The `Registry` operations (`create_session`, `get_session`) are only methods.
- `decorators.dfy`, `objects.dfy` and `user.dfy` follow the same pattern for the
  guard, `search`, `get`, `_rest_transaction` and `current_user`.
- `task.dfy`, `project.dfy` and `issue.dfy` hold the descriptor constants and
  lemmas about what `from_json` does for each kind.
- `text.dfy` has the string helpers: ASCII `lower`, `split`, `join` and substring search.

A resource kind is a `Descriptor`, a record whose field names never differ only
in case. Each of the four kinds is proved to be one. Because of that, lower-casing
the recognised keys never merges two fields, and `from_json` does not depend on
the order of the payload's keys.

Some behaviours of the code are easy to miss. The model states each one as the code has it:
- The second SAML POST's status is never tested. After that POST, the code
  tests the first hop's status a second time (pyattask/session.py:378), and
  that status is already known to be 200. `Session.SecondHopStatusIgnored`
  states this.
- A final SAML answer without a `userid` header makes `_authenticate_saml`
  return `False` instead of raising (pyattask/session.py:382-386).
  `Session.SamlOutcome` states this.
- `__setitem__` stores any key, listed by the kind or not
  (pyattask/objects.py:74-82).
- `login` with `saml=True` and no domain raises `TypeError` (from `None + '\\'`,
  pyattask/session.py:292), after the front-page GET has already been sent
  (pyattask/session.py:289-290). `Session.LoginWithoutDomain` states this.

## Model

| member | source | states |
|---|---|---|
| Http.Network.Open | pyattask/session.py:136 | a new `requests.Session` gets the next serial number; nothing is sent |
| Http.Network.Send | pyattask/session.py:240-241 | a request is appended to the log and answered by the oracle for its position |
| Http.Network.SaveCookies | pyattask/session.py:392 | the session object's cookie jar is saved; nothing else changes |
| Session.BaseUrl | pyattask/session.py:89 | the base URL is a prefix of the URL; it ends right before the first `attask/api`, or is the whole URL when there is none |
| Session.BaseUrlOfApiUrl | pyattask/session.py:89 | a site followed by `attask/api` and a version has the site as its base URL |
| Session.CheckAuthResponse | pyattask/session.py:335-340 | succeeds exactly when a `userid` header is present, with its value; otherwise AuthenticationError |
| Session.FirstNamed | pyattask/session.py:225 | finds an input with the name exactly when one exists, and it is the first one |
| Session.CollectValues | pyattask/session.py:223-229 | the values hold exactly the names that have an input, with that input's value; a matching input without a value raises KeyError |
| Session.SamlForm | pyattask/session.py:206-231 | no form raises AuthenticationError; a form without action raises KeyError; `url` is the first form's action, and the keys of `values` are the SAML names that have an input in that form |
| Session.ExtractSamlForm | pyattask/session.py:206-231 | the loop over the three SAML names gives exactly `SamlForm` |
| Session.ProbeSpec | pyattask/session.py:240-259 | one GET of the probe URL; 401 gives false; a status other than 200 and 401 raises GetHTTPError; 200 gives true exactly when a `userid` header is present; only true changes the user id, to that header |
| Session.SamlSpec | pyattask/session.py:357-393 | only a true outcome changes the user id, the session object and the saved cookies; on true the object is the second new one (TLS 1.0) and it is saved; at most two requests, one new session object for each |
| Session.AuthenticateBasic | pyattask/session.py:301-314 | raises NotImplementedError("Basic Auth") whatever the credentials |
| Session.ProbeUnauthorised | pyattask/session.py:243-244 | a 401 probe returns false and leaves the user id as it was |
| Session.LoginSpec | pyattask/session.py:261-299 | the probe is always the first request and at most four are sent; only a true result sets a user id, installs a session object or saves cookies; without SAML nothing follows the probe and the result is never false |
| Session.LoginWhenAuthenticated | pyattask/session.py:284-285 | a login whose probe succeeds returns true, and the probe is the only request sent |
| Session.LoginProbeError | pyattask/session.py:284 | an exception from the probe is the login's exception |
| Session.LoginIdempotent | pyattask/session.py:284-285 | after a successful login, a second login whose probe still names the user sends only the probe and changes nothing else |
| Session.LoginBasic | pyattask/session.py:295-297 | without SAML, a login whose probe fails raises NotImplementedError |
| Session.LoginWithoutDomain | pyattask/session.py:287-292 | a SAML login without a domain sends the front-page GET and then raises TypeError |
| Session.LoginSamlCredentials | pyattask/session.py:287-294 | a SAML login fetches the front page and runs the SAML exchange on it with `domain\username` |
| Session.SamlNoForm | pyattask/session.py:358 | a front page without a usable form fails before any request and changes nothing |
| Session.SamlFirstHop | pyattask/session.py:360-362 | the identity provider gets a POST of the form's values to its action, with NTLM credentials, through a new TLS 1.0 session object |
| Session.SamlOutcome | pyattask/session.py:371-386 | with both forms extracted and a first hop answered 200, exactly the two POSTs are sent and the result is true when the final answer has a `userid` header and false otherwise, never an exception |
| Session.SamlSecondFormMissing | pyattask/session.py:371 | an identity-provider answer without a usable SAML form raises that form's error after the single POST to the provider |
| Session.SamlRejected | pyattask/session.py:364-367 | a first hop not answered with 200 raises AuthenticationError("Authentication Failed"), and the second hop is not sent |
| Session.SecondHopStatusIgnored | pyattask/session.py:374-380 | changing the status of the second hop's answer changes nothing in the outcome |
| Session.SamlInstallsSession | pyattask/session.py:382-393 | cookies are saved exactly when the exchange succeeds; then the new object is the one the second POST went through, and the user id is that answer's `userid` |
| Session.AtTaskSession.constructor | pyattask/session.py:80-91 | keeps the URL, computes the base URL, creates one session object with the requested TLS setting; no user id |
| Session.AtTaskSession.IsAuthenticated | pyattask/session.py:233-259 | changes the network and the session exactly as `ProbeSpec` says and returns its result |
| Session.AtTaskSession.Login | pyattask/session.py:261-299 | changes the network and the session exactly as `LoginSpec` says and returns its result |
| Session.AtTaskSession.AuthenticateSaml | pyattask/session.py:342-393 | changes the network and the session exactly as `SamlSpec` says and returns its result |
| Session.Registry.constructor | pyattask/session.py:43 | no session exists at first |
| Session.Registry.CreateSession | pyattask/session.py:46-58 | the current session becomes a new, unauthenticated session for the URL, and `get_session` returns it |
| Session.Registry.GetSession | pyattask/session.py:61-70 | raises NoSession("Session Uninitialized") exactly while no session exists; otherwise returns the current one |
| Decorators.GuardSpec | pyattask/decorators.py:36-40 | one probe per call; passes exactly when the probe returns true; false raises AuthenticationError(name); a probe exception passes through unchanged; passing leaves a user id |
| Decorators.GuardPasses | pyattask/decorators.py:37-38 | the guard passes exactly on a 200 probe with a `userid` header and then holds that id; otherwise the id is unchanged |
| Decorators.GuardProbesEveryCall | pyattask/decorators.py:35-37 | two guarded calls send two probes: nothing is cached |
| Decorators.Authenticated | pyattask/decorators.py:37-40 | without a session raises NoSession and sends nothing; otherwise acts as `GuardSpec` and hands the session to the decorated function |
| Objects.Recognised | pyattask/objects.py:133-138 | the keys are exactly the lower-cased payload keys listed by the kind, each holding the payload's value |
| Objects.RecognisedInsert | pyattask/objects.py:135-137 | one more payload key adds its lower-cased form when the kind lists it, and nothing otherwise |
| Objects.FromJsonSpec | pyattask/objects.py:120-142 | a JSON object converts exactly when it has an objCode, whatever its value; without one KeyError, and a non-object raises TypeError; the result is the recognised part |
| Objects.CollectAttrs | pyattask/objects.py:133-141 | the loop over the payload's keys builds exactly the recognised part |
| Objects.FromJson | pyattask/objects.py:120-142 | a new clean object of the kind holding what `FromJsonSpec` gives, or its exception |
| Objects.Resource.constructor | pyattask/task.py:40-41 | stores the given mapping unchanged; the object is not dirty |
| Objects.Resource.Lookup | pyattask/objects.py:66-72 | a present key gives its value; an absent one raises KeyError(key) |
| Objects.Resource.Store | pyattask/objects.py:74-82 | the key now holds the value, every other key keeps its value, the object is dirty |
| Objects.Resource.Size | pyattask/objects.py:84-85 | the number of attributes; non-zero when any key is present |
| Objects.StrOf | pyattask/objects.py:87-91 | `str()` of an object with those attributes: the `id` value, or "" without one; a non-string id raises TypeError |
| Objects.Resource.Str | pyattask/objects.py:87-91 | the `id` value, or "" without one; a non-string id raises TypeError |
| Objects.Resource.Repr | pyattask/objects.py:50-58 | `<Class: "name">` when a name is present, else `<Class: id>`, else `<Class: Uninitialized>` |
| Objects.Classify | pyattask/objects.py:264-282 | a status outside {200, 302} raises GetHTTPError; then `error` raises AtTaskReturnError carrying it; then a missing `data` raises GenericAPIError; success exactly otherwise, with the whole response |
| Objects.RestSpec | pyattask/objects.py:256-260 | a verb outside get/post/put/delete raises MethodNotImplemented before any request; every accepted verb sends one GET with the parameters |
| Objects.RestTransaction | pyattask/objects.py:237-282 | acts as `RestSpec` on the current session; without a session raises NoSession and sends nothing |
| Objects.ErrorBeforeData | pyattask/objects.py:274-275 | an `error` key raises AtTaskReturnError even when `data` is also present |
| Objects.MergeParams | pyattask/objects.py:226 | the keys of both dictionaries; a key in both takes its value from `params` |
| Objects.ConvertSeq | pyattask/objects.py:203-205 | succeeds exactly when every element converts, with one result per element in order; otherwise the first failing element's exception |
| Objects.ConvertAll | pyattask/objects.py:203 | a list converts element by element; iterating over anything else only succeeds when it is empty |
| Objects.ConvertData | pyattask/objects.py:163 | the list of new objects realises `ConvertAll` element by element |
| Objects.SearchRawSpec | pyattask/objects.py:207-235 | sends the probe and at most one more request, and creates no session object; a success sent exactly the GET of `url/endpoint/search` with the merged parameters, and its answer has `data` and no `error` |
| Objects.SearchSpec | pyattask/objects.py:144-166 | sends the probe and at most one more request; on success exactly two were sent and every returned attribute map holds only the kind's fields, lower-cased |
| Objects.SearchRequests | pyattask/objects.py:226-234 | a search sends the probe, then, if it passes, one GET of `url/endpoint/search` with the merged parameters |
| Objects.SearchKeepsOrder | pyattask/objects.py:162-166 | a successful search gives one object per element of `data`, in the same order |
| Objects.SearchRaw | pyattask/objects.py:207-235 | changes the network exactly as `SearchRawSpec` says and returns its result |
| Objects.Search | pyattask/objects.py:144-166 | changes the network exactly as `SearchSpec` says; the new objects realise its result |
| Objects.FieldsParamLists | pyattask/objects.py:186 | splitting the `fields` parameter at commas gives back the field list in declared order |
| Objects.GetParams | pyattask/objects.py:185-187 | with `allfields`, `fields` holds the comma-joined field list; every other given parameter is kept |
| Objects.GetRawSpec | pyattask/objects.py:284-306 | sends the probe and at most one more request, and creates no session object; a success sent exactly the GET of `url/endpoint/id` with the parameters, and its answer has `data` and no `error` |
| Objects.GetSpec | pyattask/objects.py:168-194 | sends the probe and at most one more request; on success exactly two were sent, the second to `url/endpoint/id`, the attribute map holds only the kind's fields, lower-cased, and any `id` in it is a string |
| Objects.Logged | pyattask/objects.py:193 | formatting the object for the log keeps a conversion error, passes a map exactly when `str` of its object succeeds, and otherwise raises TypeError |
| Objects.GetRequests | pyattask/objects.py:189-193 | a get sends the probe, then, if it passes, one GET of `url/endpoint/id`; it converts that response's `data`, and then the log line's `str` may raise |
| Objects.GetNonStringId | pyattask/objects.py:191-193 | a fetched record whose `ID` is not a string makes `get` raise TypeError after the GET |
| Objects.GetRaw | pyattask/objects.py:284-306 | changes the network exactly as `GetRawSpec` says and returns its result |
| Objects.Get | pyattask/objects.py:168-194 | a non-empty dictionary passed in gets the `fields` entry in place; the network changes as `GetSpec` says; the new object realises its result, and `str(obj)` for the log raises TypeError for a non-string id |
| User.FieldsCaseDistinct | pyattask/user.py:37-38 | no two of the six fields differ only in case |
| User.KindConstants | pyattask/user.py:35-36 | endpoint "user", objCode "USER", six fields; searches go to `url/user/search` |
| User.FieldsParamNamesFields | pyattask/user.py:37-38 | the `fields` parameter splits back into the six field names in order |
| User.New | pyattask/user.py:40-41 | stores the given mapping unchanged; the object is not dirty |
| User.CurrentUserSpec | pyattask/user.py:43-47 | the guard's probe comes first and at most three requests are sent, with no session object created; on success exactly three were sent, the map holds only User fields, lower-cased, and any `id` in it is a string |
| User.CurrentUserUnauthenticated | pyattask/user.py:43-46 | an unauthenticated session raises AuthenticationError("current_user") after the probe alone |
| User.CurrentUserRequests | pyattask/user.py:46-47 | probes twice, then GETs `url/user/<id>` with every field, the id being the one the first probe's answer named |
| User.CurrentUser | pyattask/user.py:43-47 | changes the network exactly as `CurrentUserSpec` says; the new object realises its result |
| Task.FieldsCaseDistinct | pyattask/task.py:34-38 | no two of the 14 fields differ only in case |
| Task.KindConstants | pyattask/task.py:32-33 | endpoint "task", objCode "TASK", 14 fields; searches go to `url/task/search` |
| Task.FieldsParamNamesFields | pyattask/task.py:34-38 | the `fields` parameter splits back into the 14 field names in order |
| Task.New | pyattask/task.py:40-41 | stores the given mapping unchanged; the object is not dirty |
| Task.FromJsonExample | pyattask/objects.py:135-137 | `{"objCode": "TASK", "ID": "123", "name": "Foo"}` gives `id` "123" and `name` "Foo" |
| Task.LowerCaseIdDropped | pyattask/objects.py:136 | a server key `id` is dropped; the result has `id` only from `ID` |
| Project.FieldsCaseDistinct | pyattask/project.py:34-36 | no two of the 11 fields differ only in case |
| Project.KindConstants | pyattask/project.py:32-33 | endpoint "project", objCode "PROJ", 11 fields; searches go to `url/project/search` |
| Project.FieldsParamNamesFields | pyattask/project.py:34-36 | the `fields` parameter splits back into the 11 field names in order |
| Project.New | pyattask/project.py:38-39 | stores the given mapping unchanged; the object is not dirty |
| Project.ObjCodeAlwaysKept | pyattask/objects.py:130-137 | any payload with an objCode converts, and the result holds it under `objcode` |
| Project.ForeignObjCodeConverted | pyattask/objects.py:130-131 | a payload whose objCode is not "PROJ" still converts |
| Issue.FieldsCaseDistinct | pyattask/issue.py:34-37 | no two of the 15 fields differ only in case |
| Issue.KindConstants | pyattask/issue.py:32-33 | endpoint "issue", objCode "ISSUE", 15 fields; searches go to `url/issue/search` |
| Issue.FieldsParamNamesFields | pyattask/issue.py:34-37 | the `fields` parameter splits back into the 15 field names in order |
| Issue.New | pyattask/issue.py:39-40 | stores the given mapping unchanged; the object is not dirty |
| Issue.OwnerIdDropped | pyattask/issue.py:35 | a server `ownerID` never reaches an issue: no field lower-cases to `ownerid` |
| Issue.OwenerIdKept | pyattask/issue.py:35 | a payload's `owenerID` is kept as `owenerid` |

`endpoint()`, `objcode()` and `objattrs()` (pyattask/objects.py:93-118) are the
fields of `Objects.ResourceKind`. `__contains__` (pyattask/objects.py:60-64) is
`Objects.Resource.Contains`, the predicate the other members' contracts use.
Some helper functions spell out single source expressions:
- `Objects.SearchUrl` is the search URL (pyattask/objects.py:229);
- `Objects.ItemUrl` is the item URL (pyattask/objects.py:303);
- `Objects.Data` is `.get('data', [])` (pyattask/objects.py:191, 203);
- `Objects.FieldsParam` is the comma-joined field list (pyattask/objects.py:186);
- `Session.ProbeRequest` is the probe GET (pyattask/session.py:240-241);
- `Session.HandshakeRequest` is the front-page GET (pyattask/session.py:289-290).

## Left out

- Building a `requests.Session` (pyattask/session.py:119-183): the TLS 1.0
  adapter, the `$HOME` lookup and its IOError, loading the cookie jar, and the
  fixed headers. These are I/O and foreign libraries. A session object is a
  handle that records whether TLS 1.0 was requested. `create_session` defaults
  to no TLS 1.0, but the session objects the SAML exchange creates default to
  TLS 1.0. Saving the cookie jar is an event in the network's record.
- HTML parsing: responses carry their forms already parsed, with the `action`
  attribute and the inputs' `name` and `value` attributes.
- NTLM: the credentials are part of the request. Certificate checks, which
  every request disables, are left out.
- `.json()`: a response carries its decoded body, or none when the body is not
  JSON. Decoding a non-JSON body raises ValueError in the model. JSON numbers
  are integers; floats are not modelled.
- Objects.Classify: a body that decodes to a JSON value other than an object
  raises TypeError in the model. In Python a number, `true`, `false` or `null`
  body does raise TypeError. A list or a string body is instead tested for
  membership (pyattask/objects.py:274-276). If it contains "error", indexing it
  by `'error'` raises TypeError, as in the model. If it contains "data" but not
  "error", it is returned. If it contains neither, GenericAPIError is raised.
  A string body is formatted into the debug log message first
  (pyattask/objects.py:272), so a non-ASCII one raises UnicodeEncodeError
  before any membership test.
- Session.Format: `str.format` on the base URL returns it unchanged. That is
  exact for URLs without braces, and so both the probe and the front-page GET
  request the base URL itself.
- Response headers are assumed to have lower-case names, since requests'
  header dictionary ignores case. `Text.Lower` lower-cases ASCII only. Only
  field names from the four kinds are lower-cased, and all of them are ASCII.
- Session.CheckAuthResponse: the AuthenticationError it raises carries a
  fixed message instead of the header dictionary. Both callers catch it.
- Decorators.GuardSpec: the AuthenticationError carries the function's name
  but not its arguments.
- Objects.Show: it renders scalars like `str`. A list or dictionary is shown
  as `[...]` or `{...}`, because Python 2's dictionary order cannot be modelled.
- `AtTaskSession.__repr__` (pyattask/session.py:93-98) is display only and
  makes a network probe. The `url` and `userid` properties are the fields of
  `Session.AtTaskSession`.
- Objects.Resource.Repr and Objects.Resource.Str: the model treats strings as
  Unicode text. The binding is Python 2, and its `.json()` returns `unicode`
  strings. Formatting a non-ASCII `unicode` into a byte `str` raises
  UnicodeEncodeError, and the model does not capture that error. So
  `__repr__` raises for a non-ASCII name or id (pyattask/objects.py:53, 58),
  and `str(obj)` raises when `__str__` returns a non-ASCII id
  (pyattask/objects.py:87-91). The model returns the text instead.
- Logging and the debug `print` statements are left out. One exception is
  `get`'s `log.info` line (pyattask/objects.py:193). Its formatting calls
  `str` on the returned object, and the TypeError that raises for a
  non-string id is modelled by `Objects.Logged`. Several log messages are
  formatted before any logging call runs, whatever the log level, and the
  formatting itself can raise UnicodeEncodeError:
  - in `from_json`, on an unlisted non-ASCII key or value
    (pyattask/objects.py:139-140);
  - in `search`, through each found object's `__repr__`, after the GET has
    been sent (pyattask/objects.py:165);
  - in `get`, through the returned object's `__str__` for a non-ASCII id,
    after the GET has been sent (pyattask/objects.py:193);
  - in `_rest_transaction`, on a non-ASCII string body
    (pyattask/objects.py:272);
  - in `_authenticate_saml`, on a non-ASCII front page, before the form is
    extracted (pyattask/session.py:357).
  The model has no such failure on any of these paths.
- The `basestring` checks in `__getitem__` and `__setitem__` are left out,
  because keys are strings by type.
- The base class's shared `_attrs = {}` and its argument-less `__init__` are
  left out. Objects are only built with a kind and a mapping, as the four
  subclasses build them.
- pyattask/exceptions.py is modelled only as the constructors of `Errors.Error`.
  The example driver script, setup.py and pyattask/__init__.py are not part of this model.
- Http.Network.Send: the oracle answers every request. Connection errors,
  time-outs and TLS errors that requests raises from a `get` or `post`
  (pyattask/session.py:240, 289, 360, 374; pyattask/objects.py:260) are not
  modelled. In the binding they propagate to the caller unchanged.
- Objects.Resource.Store: the four subclasses keep the caller's dictionary
  object itself as `_attrs` (pyattask/task.py:41, pyattask/user.py:41,
  pyattask/project.py:39, pyattask/issue.py:40). So `__setitem__` also changes
  the caller's dictionary, and the caller's later edits show through the
  object. The model copies the mapping by value and does not capture this
  aliasing.
- Concurrency: the binding has none. Responses do not depend on time, except
  through the oracle's use of a request's position in the log.
