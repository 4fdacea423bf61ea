/** The AtTask API session (pyattask/session.py): the process-wide current session,
    the authentication probe, and login through two SAML hops. */
module Session {
  import opened Values
  import opened Errors
  import opened Text
  import opened Http

  /** The path component that separates the site from the versioned API path. */
  const ApiMarker := "attask/api"
  /** The test path formatted into the base URL for the probe; a base URL without
      braces has no placeholder for it, so the probe goes to the base URL itself (see `Format`). */
  const AuthTestEndpoint := "/project/count?status=CUR"
  /** The response header that carries the id of the authenticated user. */
  const UseridHeader := "userid"
  /** The form fields copied from a SAML form, in the order they are looked up. */
  const SamlFieldNames := ["SAMLRequest", "SAMLResponse", "RelayState"]

  const UninitializedMessage := "Session Uninitialized"
  const NoFormMessage := "no saml form in response"
  const AuthFailedMessage := "Authentication Failed"
  const BasicAuthMessage := "Basic Auth"

  /** The part of `url` before the first occurrence of "attask/api" (the whole of
      `url` when it has none), as `url.split('attask/api')[0]` gives it. */
  function BaseUrl(url: string): (base: string)
    ensures base <= url
    ensures base == url || OccursAt(url, ApiMarker, |base|)
    ensures forall i :: 0 <= i < |base| ==> !OccursAt(url, ApiMarker, i)
  {
    url[..FindFrom(url, ApiMarker, 0)]
  }

  /** The usual API URL, a site followed by "attask/api" and a version, has the
      site as its base URL. */
  lemma BaseUrlOfApiUrl(site: string, version: string)
    requires forall i :: 0 <= i < |site| ==> !OccursAt(site + ApiMarker + version, ApiMarker, i)
    ensures BaseUrl(site + ApiMarker + version) == site
  {
    var url := site + ApiMarker + version;
    assert url[|site|..|site| + |ApiMarker|] == ApiMarker;
    assert OccursAt(url, ApiMarker, |site|);
    assert url[..|site|] == site;
  }

  /** `template.format(req=field)`. The base URL holds no replacement field in
      any URL the binding is used with, so formatting returns it unchanged. */
  function Format(template: string, field: string): string {
    template
  }

  /** The request that tests whether `t` is authenticated. */
  function ProbeRequest(t: Transport, base: string): Request {
    Request(t, GET, Format(base, AuthTestEndpoint), map[], map[], None)
  }

  /** The request that fetches the site's front page, which refers to the identity provider. */
  function HandshakeRequest(t: Transport, base: string): Request {
    Request(t, GET, Format(base, "/"), map[], map[], None)
  }

  /** `_check_authresponse`: the user id from the response headers. */
  function CheckAuthResponse(headers: map<string, string>): (r: Result<string>)
    ensures r.Success? <==> UseridHeader in headers
    ensures r.Success? ==> r.value == headers[UseridHeader]
    ensures r.Failure? ==> r.error.AuthenticationError?
  {
    if UseridHeader in headers then Success(headers[UseridHeader])
    else Failure(AuthenticationError("no userid header"))
  }

  // ---------------------------------------------------------------------------
  // SAML forms

  /** Where a SAML form posts to and the field values it carries. */
  datatype SamlPost = SamlPost(url: string, values: map<string, string>)

  /** The first input named `name`, as `findAll('input', {'name': name})[0]`. */
  function FirstNamed(inputs: seq<Input>, name: string): (r: Option<Input>)
    ensures r.Some? <==> exists i :: 0 <= i < |inputs| && inputs[i].name == Some(name)
    ensures r.Some? ==> exists i :: 0 <= i < |inputs| && inputs[i] == r.value && r.value.name == Some(name)
                                    && forall j :: 0 <= j < i ==> inputs[j].name != Some(name)
    decreases |inputs|
  {
    if |inputs| == 0 then None
    else if inputs[0].name == Some(name) then Some(inputs[0])
    else
      var r := FirstNamed(inputs[1..], name);
      assert forall i :: 1 <= i < |inputs| ==> inputs[i] == inputs[1..][i - 1];
      r
  }

  /** The first input named `name` exists but has no value attribute. */
  predicate ValueMissing(inputs: seq<Input>, name: string) {
    var input := FirstNamed(inputs, name);
    input.Some? && input.value.value.None?
  }

  /** The values of the inputs named by `names`, taken in order: an input that
      is absent is skipped, one without a value attribute raises KeyError. */
  function CollectValues(inputs: seq<Input>, names: seq<string>): (r: Result<map<string, string>>)
    ensures r.Failure? <==> exists f :: f in names && ValueMissing(inputs, f)
    ensures r.Failure? ==> r.error == KeyError("value")
    ensures r.Success? ==> forall f :: f in r.value <==> f in names && FirstNamed(inputs, f).Some?
    ensures r.Success? ==> forall f :: f in r.value ==> FirstNamed(inputs, f).value.value == Some(r.value[f])
    decreases |names|
  {
    if |names| == 0 then Success(map[])
    else
      var last := names[|names| - 1];
      assert forall f :: f in names <==> f in names[..|names| - 1] || f == last;
      match CollectValues(inputs, names[..|names| - 1])
      case Failure(e) => Failure(e)
      case Success(m) =>
        var input := FirstNamed(inputs, last);
        if input.None? then Success(m)
        else if input.value.value.None? then
          assert ValueMissing(inputs, last);
          Failure(KeyError("value"))
        else Success(m[last := input.value.value.value])
  }

  /** `_extract_saml_form` on a page whose forms are `forms`: the first form's
      action and, for every SAML field name that names an input in it, that
      input's value. */
  function SamlForm(forms: seq<Form>): (r: Result<SamlPost>)
    ensures |forms| == 0 ==> r == Failure(AuthenticationError(NoFormMessage))
    ensures |forms| > 0 && forms[0].action.None? ==> r == Failure(KeyError("action"))
    ensures |forms| > 0 && forms[0].action.Some? ==>
              (r.Failure? <==> exists f :: f in SamlFieldNames && ValueMissing(forms[0].inputs, f))
    ensures |forms| > 0 && forms[0].action.Some? && r.Failure? ==> r.error == KeyError("value")
    ensures r.Success? ==> |forms| > 0 && forms[0].action == Some(r.value.url)
    ensures r.Success? ==> forall f :: f in r.value.values <==> f in SamlFieldNames && FirstNamed(forms[0].inputs, f).Some?
    ensures r.Success? ==> forall f :: f in r.value.values ==> FirstNamed(forms[0].inputs, f).value.value == Some(r.value.values[f])
  {
    if |forms| == 0 then Failure(AuthenticationError(NoFormMessage))
    else if forms[0].action.None? then Failure(KeyError("action"))
    else match CollectValues(forms[0].inputs, SamlFieldNames)
      case Failure(e) => Failure(e)
      case Success(values) => Success(SamlPost(forms[0].action.value, values))
  }

  /** `_extract_saml_form`, looking up the SAML fields one after another. */
  method ExtractSamlForm(forms: seq<Form>) returns (r: Result<SamlPost>)
    ensures r == SamlForm(forms)
  {
    if |forms| == 0 {
      return Failure(AuthenticationError(NoFormMessage));
    }
    var first := forms[0];
    if first.action.None? {
      return Failure(KeyError("action"));
    }
    var values: map<string, string> := map[];
    for k := 0 to |SamlFieldNames|
      invariant CollectValues(first.inputs, SamlFieldNames[..k]) == Success(values)
    {
      var field := SamlFieldNames[k];
      assert SamlFieldNames[..k + 1][..k] == SamlFieldNames[..k];
      var input := FirstNamed(first.inputs, field);
      if input.Some? {
        if input.value.value.None? {
          return Failure(KeyError("value"));
        }
        values := values[field := input.value.value.value];
      }
    }
    assert SamlFieldNames[..|SamlFieldNames|] == SamlFieldNames;
    return Success(SamlPost(first.action.value, values));
  }

  // ---------------------------------------------------------------------------
  // The state the session operations change, as a value

  /** The requests sent, the session objects created and the cookie-jar saves so
      far, with the session's user id and its current session object. */
  datatype World = World(
    sent: seq<Request>,
    created: nat,
    saved: seq<Transport>,
    userid: Option<string>,
    transport: Transport)

  /** `w1` follows `w` by requests appended to the log and, at most, a new user
      id: no session object is created or installed and no cookies are saved. */
  predicate OnlySends(w: World, w1: World) {
    && |w.sent| <= |w1.sent| && w1.sent[..|w.sent|] == w.sent
    && w1.created == w.created && w1.saved == w.saved && w1.transport == w.transport
  }

  /** Sends `req`. */
  function Transmit(reply: Oracle, w: World, req: Request): (World, Response) {
    (w.(sent := w.sent + [req]), reply(|w.sent|, req))
  }

  /** Creates a session object; `_get_new_requestsession()` forces TLS 1.0 by default. */
  function Create(w: World, tlsOne: bool): (World, Transport) {
    (w.(created := w.created + 1), Transport(w.created, tlsOne))
  }

  /** `is_authenticated`: one GET of the probe URL through the current session object. */
  function ProbeSpec(reply: Oracle, base: string, w: World): (res: (World, Result<bool>))
    ensures res.0 == w.(sent := w.sent + [ProbeRequest(w.transport, base)], userid := res.0.userid)
    ensures var resp := reply(|w.sent|, ProbeRequest(w.transport, base));
            && (resp.status == 401 ==> res.1 == Success(false))
            && (resp.status != 200 && resp.status != 401 ==>
                  res.1 == Failure(GetHTTPError(resp.url, resp.status, resp.reason)))
            && (resp.status == 200 ==> res.1 == Success(UseridHeader in resp.headers))
            && (res.1 == Success(true) ==>
                  UseridHeader in resp.headers && res.0.userid == Some(resp.headers[UseridHeader]))
    ensures res.1 != Success(true) ==> res.0.userid == w.userid
  {
    var (w1, resp) := Transmit(reply, w, ProbeRequest(w.transport, base));
    if resp.status == 401 then (w1, Success(false))
    else if resp.status != 200 then (w1, Failure(GetHTTPError(resp.url, resp.status, resp.reason)))
    else match CheckAuthResponse(resp.headers)
      case Failure(_) => (w1, Success(false))
      case Success(uid) => (w1.(userid := Some(uid)), Success(true))
  }

  /** `_authenticate_saml`: post the site's SAML request to the identity provider
      with NTLM credentials through a new session object, then post the provider's
      SAML response back to the site through another new one, which becomes the
      session's own when the site names the user. */
  function SamlSpec(reply: Oracle, w: World, username: string, password: string, initial: Response): (res: (World, Result<bool>))
    ensures res.1 != Success(true) ==>
              res.0.userid == w.userid && res.0.transport == w.transport && res.0.saved == w.saved
    ensures res.1 == Success(true) ==>
              && res.0.userid.Some?
              && res.0.transport == Transport(w.created + 1, true)
              && res.0.saved == w.saved + [res.0.transport]
    ensures |w.sent| <= |res.0.sent| <= |w.sent| + 2 && res.0.sent[..|w.sent|] == w.sent
    ensures res.0.created == w.created + (|res.0.sent| - |w.sent|)
  {
    match SamlForm(initial.forms)
    case Failure(e) => (w, Failure(e))
    case Success(idpForm) =>
      var (w1, idp) := Create(w, true);
      var (w2, idpResp) := Transmit(reply, w1,
        Request(idp, POST, idpForm.url, map[], idpForm.values, Some(Ntlm(username, password))));
      if idpResp.status != 200 then (w2, Failure(AuthenticationError(AuthFailedMessage)))
      else match SamlForm(idpResp.forms)
        case Failure(e) => (w2, Failure(e))
        case Success(spForm) =>
          var (w3, sp) := Create(w2, true);
          var (w4, spResp) := Transmit(reply, w3, Request(sp, POST, spForm.url, map[], spForm.values, None));
          // the source tests the first hop's status once more at this point
          if idpResp.status != 200 then (w4, Failure(AuthenticationError(AuthFailedMessage)))
          else match CheckAuthResponse(spResp.headers)
            case Failure(_) => (w4, Success(false))
            case Success(uid) => (w4.(userid := Some(uid), transport := sp, saved := w4.saved + [sp]), Success(true))
  }

  /** `_authenticate_basic`: not implemented, whatever the credentials. */
  function AuthenticateBasic(username: string, password: string): (r: Result<bool>)
    ensures r.Failure? && r.error == NotImplementedError(BasicAuthMessage)
  {
    Failure(NotImplementedError(BasicAuthMessage))
  }

  /** `login`: nothing more when the probe succeeds; otherwise fetch the site's
      front page and run the SAML exchange for `domain\username`, or basic
      authentication when `saml` is false. */
  function LoginSpec(reply: Oracle, base: string, w: World, username: string, password: string,
                     saml: bool, domain: Option<string>): (res: (World, Result<bool>))
    ensures |w.sent| + 1 <= |res.0.sent| <= |w.sent| + 4
    ensures res.0.sent[..|w.sent| + 1] == w.sent + [ProbeRequest(w.transport, base)]
    ensures res.1 == Success(true) ==> res.0.userid.Some?
    ensures res.1 != Success(true) ==>
              res.0.userid == w.userid && res.0.transport == w.transport && res.0.saved == w.saved
    ensures !saml ==> OnlySends(w, res.0) && |res.0.sent| == |w.sent| + 1
    ensures !saml && res.1.Success? ==> res.1 == Success(true)
  {
    var (w1, probe) := ProbeSpec(reply, base, w);
    match probe
    case Failure(e) => (w1, Failure(e))
    case Success(true) => (w1, Success(true))
    case Success(false) =>
      if saml then
        var (w2, initial) := Transmit(reply, w1, HandshakeRequest(w1.transport, base));
        match domain
        case None => (w2, Failure(TypeError))  // None + '\\' raises
        case Some(d) => SamlSpec(reply, w2, d + "\\" + username, password, initial)
      else (w1, AuthenticateBasic(username, password))
  }

  // ---------------------------------------------------------------------------
  // Properties of the session operations

  /** A probe answered with 401 reports "not authenticated" and keeps the user id. */
  lemma ProbeUnauthorised(reply: Oracle, base: string, w: World)
    requires reply(|w.sent|, ProbeRequest(w.transport, base)).status == 401
    ensures ProbeSpec(reply, base, w).1 == Success(false)
    ensures ProbeSpec(reply, base, w).0 == w.(sent := w.sent + [ProbeRequest(w.transport, base)])
  {
  }

  /** A login whose probe succeeds sends nothing after the probe. */
  lemma LoginWhenAuthenticated(reply: Oracle, base: string, w: World, username: string, password: string,
                               saml: bool, domain: Option<string>)
    requires ProbeSpec(reply, base, w).1 == Success(true)
    ensures LoginSpec(reply, base, w, username, password, saml, domain) == ProbeSpec(reply, base, w)
    ensures LoginSpec(reply, base, w, username, password, saml, domain).0.sent == w.sent + [ProbeRequest(w.transport, base)]
  {
  }

  /** A failing probe makes login fail the same way. */
  lemma LoginProbeError(reply: Oracle, base: string, w: World, username: string, password: string,
                        saml: bool, domain: Option<string>)
    requires ProbeSpec(reply, base, w).1.Failure?
    ensures LoginSpec(reply, base, w, username, password, saml, domain) == ProbeSpec(reply, base, w)
  {
  }

  /** Logging in again after a successful login is a single probe when the
      site still names the user: it changes nothing else. */
  lemma LoginIdempotent(reply: Oracle, base: string, w: World, username: string, password: string,
                        saml: bool, domain: Option<string>)
    requires LoginSpec(reply, base, w, username, password, saml, domain).1 == Success(true)
    requires var w1 := LoginSpec(reply, base, w, username, password, saml, domain).0;
             var resp := reply(|w1.sent|, ProbeRequest(w1.transport, base));
             resp.status == 200 && UseridHeader in resp.headers && Some(resp.headers[UseridHeader]) == w1.userid
    ensures var w1 := LoginSpec(reply, base, w, username, password, saml, domain).0;
            LoginSpec(reply, base, w1, username, password, saml, domain)
              == (w1.(sent := w1.sent + [ProbeRequest(w1.transport, base)]), Success(true))
  {
  }

  /** Without SAML, a login that is not already authenticated always raises. */
  lemma LoginBasic(reply: Oracle, base: string, w: World, username: string, password: string, domain: Option<string>)
    requires ProbeSpec(reply, base, w).1 == Success(false)
    ensures LoginSpec(reply, base, w, username, password, false, domain)
              == (ProbeSpec(reply, base, w).0, Failure(NotImplementedError(BasicAuthMessage)))
  {
  }

  /** A SAML login without a domain raises TypeError, after fetching the front page. */
  lemma LoginWithoutDomain(reply: Oracle, base: string, w: World, username: string, password: string)
    requires ProbeSpec(reply, base, w).1 == Success(false)
    ensures var w1 := ProbeSpec(reply, base, w).0;
            LoginSpec(reply, base, w, username, password, true, None)
              == (w1.(sent := w1.sent + [HandshakeRequest(w1.transport, base)]), Failure(TypeError))
  {
  }

  /** A SAML login posts to the identity provider with the credentials of `domain\username`. */
  lemma LoginSamlCredentials(reply: Oracle, base: string, w: World, username: string, password: string, domain: string)
    requires ProbeSpec(reply, base, w).1 == Success(false)
    ensures var w1 := ProbeSpec(reply, base, w).0;
            var w2 := w1.(sent := w1.sent + [HandshakeRequest(w1.transport, base)]);
            var initial := reply(|w1.sent|, HandshakeRequest(w1.transport, base));
            LoginSpec(reply, base, w, username, password, true, Some(domain))
              == SamlSpec(reply, w2, domain + "\\" + username, password, initial)
  {
  }

  /** A front page without a usable SAML form ends the exchange before anything is sent. */
  lemma SamlNoForm(reply: Oracle, w: World, username: string, password: string, initial: Response)
    requires SamlForm(initial.forms).Failure?
    ensures SamlSpec(reply, w, username, password, initial) == (w, Failure(SamlForm(initial.forms).error))
  {
  }

  /** The identity provider gets the site's SAML fields, at the form's action,
      with NTLM credentials, through a new TLS 1.0 session object. */
  lemma SamlFirstHop(reply: Oracle, w: World, username: string, password: string, initial: Response)
    requires SamlForm(initial.forms).Success?
    ensures var form := SamlForm(initial.forms).value;
            SamlSpec(reply, w, username, password, initial).0.sent[|w.sent|]
              == Request(Transport(w.created, true), POST, form.url, map[], form.values, Some(Ntlm(username, password)))
  {
  }

  /** An identity provider that does not answer 200 makes the login raise, and
      the second hop is never sent. */
  lemma SamlRejected(reply: Oracle, w: World, username: string, password: string, initial: Response)
    requires SamlForm(initial.forms).Success?
    requires var form := SamlForm(initial.forms).value;
             reply(|w.sent|, Request(Transport(w.created, true), POST, form.url, map[], form.values,
                                     Some(Ntlm(username, password)))).status != 200
    ensures SamlSpec(reply, w, username, password, initial).1 == Failure(AuthenticationError(AuthFailedMessage))
    ensures |SamlSpec(reply, w, username, password, initial).0.sent| == |w.sent| + 1
  {
  }

  /** Once both forms are extracted and the identity provider answers 200, the
      exchange sends exactly the two posts and reports whether the site's final
      answer names a user: false, not an exception, when it does not. */
  lemma SamlOutcome(reply: Oracle, w: World, username: string, password: string, initial: Response)
    requires SamlForm(initial.forms).Success?
    requires var form := SamlForm(initial.forms).value;
             var idpResp := reply(|w.sent|, Request(Transport(w.created, true), POST, form.url, map[],
                                                    form.values, Some(Ntlm(username, password))));
             idpResp.status == 200 && SamlForm(idpResp.forms).Success?
    ensures var form := SamlForm(initial.forms).value;
            var idpReq := Request(Transport(w.created, true), POST, form.url, map[], form.values,
                                  Some(Ntlm(username, password)));
            var spForm := SamlForm(reply(|w.sent|, idpReq).forms).value;
            var spReq := Request(Transport(w.created + 1, true), POST, spForm.url, map[], spForm.values, None);
            var (w1, r) := SamlSpec(reply, w, username, password, initial);
            && r == Success(UseridHeader in reply(|w.sent| + 1, spReq).headers)
            && w1.sent == w.sent + [idpReq, spReq]
            && w1.created == w.created + 2
  {
  }

  /** An identity-provider answer without a usable SAML form raises that form's
      error after the single post to the provider. */
  lemma SamlSecondFormMissing(reply: Oracle, w: World, username: string, password: string, initial: Response)
    requires SamlForm(initial.forms).Success?
    requires var form := SamlForm(initial.forms).value;
             var idpResp := reply(|w.sent|, Request(Transport(w.created, true), POST, form.url, map[],
                                                    form.values, Some(Ntlm(username, password))));
             idpResp.status == 200 && SamlForm(idpResp.forms).Failure?
    ensures var form := SamlForm(initial.forms).value;
            var idpReq := Request(Transport(w.created, true), POST, form.url, map[], form.values,
                                  Some(Ntlm(username, password)));
            SamlSpec(reply, w, username, password, initial)
              == (w.(sent := w.sent + [idpReq], created := w.created + 1),
                  Failure(SamlForm(reply(|w.sent|, idpReq).forms).error))
  {
  }

  /** The status code of the site's final answer plays no part: only its
      userid header decides the outcome. */
  lemma SecondHopStatusIgnored(reply: Oracle, w: World, username: string, password: string, initial: Response, status: int)
    ensures var other := (n: nat, req: Request) =>
              if n == |w.sent| + 1 then reply(n, req).(status := status) else reply(n, req);
            SamlSpec(other, w, username, password, initial) == SamlSpec(reply, w, username, password, initial)
  {
  }

  /** Exactly the successful exchanges install the new session object and its
      user id and save its cookies; every other outcome leaves them as they were. */
  lemma SamlInstallsSession(reply: Oracle, w: World, username: string, password: string, initial: Response)
    ensures var (w1, r) := SamlSpec(reply, w, username, password, initial);
            (r == Success(true) <==> w1.saved != w.saved)
            && (r == Success(true) ==>
                  && |w1.sent| == |w.sent| + 2
                  && w1.transport == w1.sent[|w.sent| + 1].via
                  && Some(reply(|w.sent| + 1, w1.sent[|w.sent| + 1]).headers[UseridHeader]) == w1.userid)
  {
  }

  // ---------------------------------------------------------------------------
  // The objects

  /** The session's part of the world. */
  function WorldOf(net: Network, s: AtTaskSession): World
    reads net, s
  {
    World(net.sent, net.created, net.saved, s.userid, s.transport)
  }

  /** An `AtTaskSession`: the API URL, the site it belongs to, the authenticated
      user's id and the `requests.Session` it sends through. */
  class AtTaskSession {
    const url: string
    const baseUrl: string
    var userid: Option<string>
    var transport: Transport

    constructor (url: string, forceTlsOne: bool, net: Network)
      modifies net
      ensures this.url == url && baseUrl == BaseUrl(url)
      ensures userid == None && transport == Transport(old(net.created), forceTlsOne)
      ensures net.created == old(net.created) + 1
      ensures net.sent == old(net.sent) && net.saved == old(net.saved)
    {
      var t := net.Open(forceTlsOne);
      this.url := url;
      baseUrl := BaseUrl(url);
      userid := None;
      transport := t;
    }

    method IsAuthenticated(net: Network) returns (r: Result<bool>)
      modifies this, net
      ensures (WorldOf(net, this), r) == ProbeSpec(net.reply, baseUrl, old(WorldOf(net, this)))
    {
      var resp := net.Send(ProbeRequest(transport, baseUrl));
      if resp.status == 401 {
        return Success(false);
      } else if resp.status != 200 {
        return Failure(GetHTTPError(resp.url, resp.status, resp.reason));
      }
      var check := CheckAuthResponse(resp.headers);
      if check.Failure? {
        return Success(false);
      }
      userid := Some(check.value);
      return Success(true);
    }

    method Login(net: Network, username: string, password: string, saml: bool, domain: Option<string>)
      returns (r: Result<bool>)
      modifies this, net
      ensures (WorldOf(net, this), r)
                == LoginSpec(net.reply, baseUrl, old(WorldOf(net, this)), username, password, saml, domain)
    {
      var probe := IsAuthenticated(net);
      if probe.Failure? {
        return Failure(probe.error);
      } else if probe.value {
        return Success(true);
      }
      if saml {
        var initial := net.Send(HandshakeRequest(transport, baseUrl));
        if domain.None? {
          return Failure(TypeError);
        }
        r := AuthenticateSaml(net, domain.value + "\\" + username, password, initial);
      } else {
        r := AuthenticateBasic(username, password);
      }
    }

    method AuthenticateSaml(net: Network, username: string, password: string, initial: Response)
      returns (r: Result<bool>)
      modifies this, net
      ensures (WorldOf(net, this), r) == SamlSpec(net.reply, old(WorldOf(net, this)), username, password, initial)
    {
      var idpForm := ExtractSamlForm(initial.forms);
      if idpForm.Failure? {
        return Failure(idpForm.error);
      }
      var idp := net.Open(true);
      var idpResp := net.Send(Request(idp, POST, idpForm.value.url, map[], idpForm.value.values,
                                      Some(Ntlm(username, password))));
      var status := idpResp.status;
      if status != 200 {
        return Failure(AuthenticationError(AuthFailedMessage));
      }
      var spForm := ExtractSamlForm(idpResp.forms);
      if spForm.Failure? {
        return Failure(spForm.error);
      }
      var sp := net.Open(true);
      var spResp := net.Send(Request(sp, POST, spForm.value.url, map[], spForm.value.values, None));
      // the source tests the first hop's status again; it is 200 here
      assert status == 200;
      var check := CheckAuthResponse(spResp.headers);
      if check.Failure? {
        return Success(false);
      }
      userid := Some(check.value);
      transport := sp;
      net.SaveCookies(sp);
      return Success(true);
    }
  }

  /** The process-wide current session (`_CURRENT_SESSION`). */
  class Registry {
    var current: Option<AtTaskSession>

    constructor ()
      ensures current == None
    {
      current := None;
    }

    /** The session object the registry holds. */
    ghost function Held(): set<object>
      reads this
    {
      if current.Some? then {current.value} else {}
    }

    /** `create_session`: a new session for `url` replaces the current one. */
    method CreateSession(url: string, forceTlsOne: bool, net: Network)
      modifies this, net
      ensures current.Some? && fresh(current.value)
      ensures current.value.url == url && current.value.baseUrl == BaseUrl(url)
      ensures current.value.userid == None
      ensures current.value.transport == Transport(old(net.created), forceTlsOne)
      ensures net.created == old(net.created) + 1
      ensures net.sent == old(net.sent) && net.saved == old(net.saved)
      ensures GetSession() == Success(current.value)
    {
      var s := new AtTaskSession(url, forceTlsOne, net);
      current := Some(s);
    }

    /** `get_session`: the current session, or NoSession before any was created. */
    function GetSession(): (r: Result<AtTaskSession>)
      reads this
      ensures r.Success? <==> current.Some?
      ensures r.Success? ==> r.value == current.value
      ensures r.Failure? ==> r.error == NoSession(UninitializedMessage)
    {
      if current.None? then Failure(NoSession(UninitializedMessage)) else Success(current.value)
    }
  }
}
