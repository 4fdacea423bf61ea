/** The generic resource-object protocol (pyattask/objects.py): conversion of
    JSON payloads into objects, the attribute map of an object, and the guarded
    REST calls that search for and fetch objects. */
module Objects {
  import opened Values
  import opened Errors
  import opened Text
  import opened Http
  import opened Session
  import opened Decorators

  /** The class-level data of a resource class: its API endpoint, its objCode,
      the API field names it recognises and the class name it displays. */
  datatype ResourceKind = ResourceKind(endpoint: string, objCode: string, fields: seq<string>, className: string)

  /** A resource kind whose field names never differ only in case: lowering the
      recognised keys of a payload never makes two of them collide. */
  type Descriptor = k: ResourceKind | CaseDistinct(k.fields) witness ResourceKind("", "", [], "")

  /** The request methods `_rest_transaction` accepts. */
  const AllowedVerbs := ["get", "post", "put", "delete"]
  /** The request parameter that selects the fields a GET returns. */
  const FieldsKey := "fields"

  // ---------------------------------------------------------------------------
  // from_json

  /** The recognised part of `payload`, under lower-cased keys. */
  function Recognised(desc: Descriptor, payload: map<string, Json>): (attrs: map<string, Json>)
    ensures attrs.Keys == set k | k in payload && k in desc.fields :: Lower(k)
    ensures forall k :: k in payload && k in desc.fields ==> attrs[Lower(k)] == payload[k]
  {
    map k | k in payload && k in desc.fields :: Lower(k) := payload[k]
  }

  /** Every key of `attrs` is the lower-cased form of a field the kind lists. */
  predicate Listed(desc: Descriptor, attrs: map<string, Json>) {
    forall k :: k in attrs ==> exists f :: f in desc.fields && Lower(f) == k
  }

  /** Adding one key to a payload adds at most its lower-cased form to the result. */
  lemma RecognisedInsert(desc: Descriptor, payload: map<string, Json>, key: string, value: Json)
    requires key !in payload
    ensures Recognised(desc, payload[key := value])
              == if key in desc.fields then Recognised(desc, payload)[Lower(key) := value]
                 else Recognised(desc, payload)
  {
    var before := Recognised(desc, payload);
    var after := Recognised(desc, payload[key := value]);
    var expected := if key in desc.fields then before[Lower(key) := value] else before;
    forall x | x in after
      ensures x in expected && after[x] == expected[x]
    {
      var origin :| origin in payload[key := value] && origin in desc.fields && Lower(origin) == x;
      if origin != key {
        assert origin in payload;
        if key in desc.fields {
          assert Lower(origin) != Lower(key);
        }
      }
    }
    forall x | x in expected
      ensures x in after
    {
      if key in desc.fields && x == Lower(key) {
        assert key in payload[key := value];
      } else {
        var origin :| origin in payload && origin in desc.fields && Lower(origin) == x;
        assert origin in payload[key := value];
      }
    }
    assert after.Keys == expected.Keys;
  }

  /** `from_json` without the object: a JSON object must hold an objCode, whatever
      its value; what it yields is its recognised part. */
  function FromJsonSpec(desc: Descriptor, json: Json): (r: Result<map<string, Json>>)
    ensures r.Success? <==> json.JObj? && "objCode" in json.fields
    ensures json.JObj? && "objCode" !in json.fields ==> r == Failure(KeyError("objCode"))
    ensures !json.JObj? ==> r == Failure(TypeError)
    ensures r.Success? ==> r.value == Recognised(desc, json.fields)
  {
    match json
    case JObj(payload) =>
      if "objCode" in payload then Success(Recognised(desc, payload))
      else Failure(KeyError("objCode"))
    case _ => Failure(TypeError)
  }

  /** The loop of `from_json`: every key of the payload that the kind lists is
      kept under its lower-cased form; the others are dropped. */
  method CollectAttrs(desc: Descriptor, payload: map<string, Json>) returns (attrs: map<string, Json>)
    ensures attrs == Recognised(desc, payload)
  {
    attrs := map[];
    var pending := payload.Keys;
    while pending != {}
      invariant pending <= payload.Keys
      invariant attrs == Recognised(desc, payload - pending)
      decreases pending
    {
      var key :| key in pending;
      var done := payload - pending;
      assert payload - (pending - {key}) == done[key := payload[key]];
      RecognisedInsert(desc, done, key, payload[key]);
      if key in desc.fields {
        attrs := attrs[Lower(key) := payload[key]];
      }
      pending := pending - {key};
    }
    assert payload - pending == payload;
  }

  /** `from_json`: a new object of kind `desc` holding the payload's recognised part. */
  method FromJson(desc: Descriptor, json: Json) returns (r: Result<Resource>)
    ensures FromJsonSpec(desc, json).Failure? ==> r == Failure(FromJsonSpec(desc, json).error)
    ensures FromJsonSpec(desc, json).Success? ==>
              r.Success? && fresh(r.value) && r.value.desc == desc
              && r.value.attrs == FromJsonSpec(desc, json).value && !r.value.dirty
  {
    if !json.JObj? {
      return Failure(TypeError);
    }
    var payload := json.fields;
    if "objCode" !in payload {
      return Failure(KeyError("objCode"));
    }
    // an objCode other than the kind's own is only logged
    var attrs := CollectAttrs(desc, payload);
    var obj := new Resource(desc, attrs);
    return Success(obj);
  }

  // ---------------------------------------------------------------------------
  // Objects

  /** `str()` of a JSON value as `format` renders it. */
  function Show(v: Json): string {
    match v
    case JNull => "None"
    case JBool(b) => if b then "True" else "False"
    case JNum(n) => IntToString(n)
    case JStr(s) => s
    case JArr(_) => "[...]"
    case JObj(_) => "{...}"
  }

  /** `str()` of an object holding `attrs`: its id, or the empty string without
      one; an id that is not a string makes `str` raise. */
  function StrOf(attrs: map<string, Json>): (r: Result<string>)
    ensures "id" !in attrs ==> r == Success("")
    ensures "id" in attrs ==> (r.Success? <==> attrs["id"].JStr?)
    ensures "id" in attrs && r.Success? ==> r.value == attrs["id"].s
    ensures r.Failure? ==> r.error == TypeError
  {
    if "id" in attrs then
      match attrs["id"]
      case JStr(s) => Success(s)
      case _ => Failure(TypeError)
    else Success("")
  }

  /** An object of some resource kind: its attributes and whether any of them
      has been changed since it was built. */
  class Resource {
    const desc: Descriptor
    var attrs: map<string, Json>
    var dirty: bool

    /** The subclasses' `__init__(attrs=...)`. */
    constructor (desc: Descriptor, attrs: map<string, Json>)
      ensures this.desc == desc && this.attrs == attrs && !dirty
    {
      this.desc := desc;
      this.attrs := attrs;
      dirty := false;
    }

    /** `key in obj`. */
    predicate Contains(key: string)
      reads this
    {
      key in attrs
    }

    /** `obj[key]`. */
    function Lookup(key: string): (r: Result<Json>)
      reads this
      ensures r.Success? <==> Contains(key)
      ensures r.Success? ==> r.value == attrs[key]
      ensures r.Failure? ==> r.error == KeyError(key)
    {
      if key in attrs then Success(attrs[key]) else Failure(KeyError(key))
    }

    /** `obj[key] = value`: the object is dirty afterwards. */
    method Store(key: string, value: Json)
      modifies this
      ensures attrs == old(attrs)[key := value] && dirty
      ensures Lookup(key) == Success(value)
      ensures forall k :: k != key ==> Lookup(k) == old(Lookup(k))
      ensures forall k :: Contains(k) <==> old(Contains(k)) || k == key
    {
      attrs := attrs[key := value];
      dirty := true;
    }

    /** `len(obj)`. */
    function Size(): (n: nat)
      reads this
      ensures n == |attrs.Keys|
      ensures forall k :: Contains(k) ==> n >= 1
    {
      |attrs|
    }

    /** `str(obj)`: the id, or the empty string without one; an id that is not
      a string makes `str` raise. */
    function Str(): (r: Result<string>)
      reads this
      ensures !Contains("id") ==> r == Success("")
      ensures Contains("id") ==> (r.Success? <==> attrs["id"].JStr?)
      ensures Contains("id") && r.Success? ==> r.value == attrs["id"].s
    {
      StrOf(attrs)
    }

    /** `repr(obj)`: the class name with the quoted name, else the id, else
        "Uninitialized". */
    function Repr(): (r: string)
      reads this
      ensures Contains("name") ==> r == "<" + desc.className + ": \"" + Show(attrs["name"]) + "\">"
      ensures !Contains("name") && Contains("id") ==> r == "<" + desc.className + ": " + Show(attrs["id"]) + ">"
      ensures !Contains("name") && !Contains("id") ==> r == "<" + desc.className + ": Uninitialized>"
    {
      var shown :=
        if "name" in attrs then "\"" + Show(attrs["name"]) + "\""
        else if "id" in attrs then Show(attrs["id"])
        else "Uninitialized";
      "<" + desc.className + ": " + shown + ">"
    }
  }

  // ---------------------------------------------------------------------------
  // REST transactions

  /** `_rest_transaction`'s verdict on a response, checked in order: the status,
      then an `error` key, then a `data` key; the whole decoded body otherwise. */
  function Classify(resp: Response): (r: Result<map<string, Json>>)
    ensures resp.status != 200 && resp.status != 302 ==>
              r == Failure(GetHTTPError(resp.url, resp.status, resp.reason))
    ensures r.Success? <==>
              && (resp.status == 200 || resp.status == 302)
              && resp.json.Some? && resp.json.value.JObj?
              && "error" !in resp.json.value.fields && "data" in resp.json.value.fields
    ensures r.Success? ==> r.value == resp.json.value.fields
    ensures (resp.status == 200 || resp.status == 302) && resp.json.Some? && resp.json.value.JObj? ==>
              var body := resp.json.value.fields;
              && ("error" in body ==> r == Failure(AtTaskReturnError(body["error"])))
              && ("error" !in body && "data" !in body ==> r == Failure(GenericAPIError(body)))
  {
    if resp.status != 200 && resp.status != 302 then
      Failure(GetHTTPError(resp.url, resp.status, resp.reason))
    else match resp.json
      case None => Failure(ValueError)
      case Some(JObj(body)) =>
        if "error" in body then Failure(AtTaskReturnError(body["error"]))
        else if "data" !in body then Failure(GenericAPIError(body))
        else Success(body)
      case Some(_) => Failure(TypeError)
  }

  /** `_rest_transaction(verb, url, params)`: an accepted verb always leads to a GET
      through the session's own session object. */
  function RestSpec(reply: Oracle, w: World, verb: string, url: string, params: map<string, string>)
    : (res: (World, Result<map<string, Json>>))
    ensures verb !in AllowedVerbs ==> res == (w, Failure(MethodNotImplemented(verb)))
    ensures verb in AllowedVerbs ==>
              var req := Request(w.transport, GET, url, params, map[], None);
              res == (w.(sent := w.sent + [req]), Classify(reply(|w.sent|, req)))
  {
    if verb !in AllowedVerbs then (w, Failure(MethodNotImplemented(verb)))
    else
      var (w1, resp) := Transmit(reply, w, Request(w.transport, GET, url, params, map[], None));
      (w1, Classify(resp))
  }

  method RestTransaction(reg: Registry, net: Network, verb: string, url: string, params: map<string, string>)
    returns (r: Result<map<string, Json>>)
    modifies net
    ensures verb !in AllowedVerbs ==> r == Failure(MethodNotImplemented(verb)) && unchanged(net)
    ensures verb in AllowedVerbs && reg.current.None? ==>
              r == Failure(NoSession(UninitializedMessage)) && unchanged(net)
    ensures reg.current.Some? ==>
              (WorldOf(net, reg.current.value), r)
                == RestSpec(net.reply, old(WorldOf(net, reg.current.value)), verb, url, params)
  {
    if verb !in AllowedVerbs {
      return Failure(MethodNotImplemented(verb));
    }
    var session := reg.GetSession();
    if session.Failure? {
      return Failure(session.error);
    }
    var resp := net.Send(Request(session.value.transport, GET, url, params, map[], None));
    return Classify(resp);
  }

  /** An `error` key wins over a `data` key. */
  lemma ErrorBeforeData(resp: Response, body: map<string, Json>)
    requires resp.status == 200 || resp.status == 302
    requires resp.json == Some(JObj(body)) && "error" in body && "data" in body
    ensures Classify(resp) == Failure(AtTaskReturnError(body["error"]))
  {
  }

  // ---------------------------------------------------------------------------
  // search

  /** `dict(searchfields.items() + params.items())`: a parameter given in both
      takes its value from `params`. */
  function MergeParams(searchFields: map<string, string>, params: map<string, string>): (m: map<string, string>)
    ensures m.Keys == searchFields.Keys + params.Keys
    ensures forall k :: k in params ==> m[k] == params[k]
    ensures forall k :: k in searchFields && k !in params ==> m[k] == searchFields[k]
  {
    searchFields + params
  }

  function SearchUrl(url: string, desc: Descriptor): string {
    url + "/" + desc.endpoint + "/search"
  }

  function ItemUrl(url: string, desc: Descriptor, id: string): string {
    url + "/" + desc.endpoint + "/" + id
  }

  /** `json_resp.get('data', [])`. */
  function Data(resp: map<string, Json>): Json {
    if "data" in resp then resp["data"] else JArr([])
  }

  /** `from_json` for each element, in order; the first failure ends the conversion. */
  function ConvertSeq(desc: Descriptor, items: seq<Json>): (r: Result<seq<map<string, Json>>>)
    ensures r.Success? <==> forall i :: 0 <= i < |items| ==> FromJsonSpec(desc, items[i]).Success?
    ensures r.Success? ==> |r.value| == |items|
    ensures r.Success? ==> forall i :: 0 <= i < |items| ==> r.value[i] == FromJsonSpec(desc, items[i]).value
    ensures r.Failure? ==>
              exists i :: 0 <= i < |items| && FromJsonSpec(desc, items[i]).Failure?
                          && r.error == FromJsonSpec(desc, items[i]).error
                          && forall j :: 0 <= j < i ==> FromJsonSpec(desc, items[j]).Success?
    decreases |items|
  {
    if |items| == 0 then Success([])
    else
      assert forall i :: 1 <= i < |items| ==> items[1..][i - 1] == items[i];
      match FromJsonSpec(desc, items[0])
      case Failure(e) => Failure(e)
      case Success(first) =>
        match ConvertSeq(desc, items[1..])
        case Failure(e) => Failure(e)
        case Success(rest) => Success([first] + rest)
  }

  /** `list(_convert_from_json(json_resp))` on the value under `data`: iterating
      over anything but a list yields strings or fails, and `from_json` of a
      string raises TypeError. */
  function ConvertAll(desc: Descriptor, data: Json): (r: Result<seq<map<string, Json>>>)
    ensures data.JArr? ==> r == ConvertSeq(desc, data.items)
    ensures !data.JArr? ==> (r.Success? <==> data == JObj(map[]) || data == JStr(""))
    ensures !data.JArr? && r.Success? ==> r.value == []
  {
    match data
    case JArr(items) => ConvertSeq(desc, items)
    case JObj(m) => if m == map[] then Success([]) else Failure(TypeError)
    case JStr(s) => if s == "" then Success([]) else Failure(TypeError)
    case _ => Failure(TypeError)
  }

  /** A sequence of objects realises the converted payloads. */
  ghost predicate HoldsAll(r: Result<seq<Resource>>, spec: Result<seq<map<string, Json>>>, desc: Descriptor)
    reads if r.Success? then set o | o in r.value else {}
  {
    match spec
    case Failure(e) => r == Failure(e)
    case Success(all) =>
      && r.Success? && |r.value| == |all|
      && forall i :: 0 <= i < |all| ==>
           r.value[i].desc == desc && r.value[i].attrs == all[i] && !r.value[i].dirty
  }

  /** `_convert_from_json`, drained into a list. */
  method ConvertData(desc: Descriptor, data: Json) returns (r: Result<seq<Resource>>)
    ensures HoldsAll(r, ConvertAll(desc, data), desc)
    ensures r.Success? ==> forall i :: 0 <= i < |r.value| ==> fresh(r.value[i])
  {
    if !data.JArr? {
      if data == JObj(map[]) || data == JStr("") {
        return Success([]);
      }
      return Failure(TypeError);
    }
    var items := data.items;
    var objs: seq<Resource> := [];
    for i := 0 to |items|
      invariant |objs| == i
      invariant forall j :: 0 <= j < i ==> FromJsonSpec(desc, items[j]).Success?
      invariant forall j :: 0 <= j < i ==>
                  && fresh(objs[j]) && objs[j].desc == desc
                  && objs[j].attrs == FromJsonSpec(desc, items[j]).value && !objs[j].dirty
    {
      var obj := FromJson(desc, items[i]);
      if obj.Failure? {
        return Failure(obj.error);
      }
      objs := objs + [obj.value];
    }
    return Success(objs);
  }

  /** `_search`: guarded; one GET of the kind's search URL with the merged parameters. */
  function SearchRawSpec(reply: Oracle, url: string, base: string, w: World, desc: Descriptor,
                         searchFields: map<string, string>, params: map<string, string>)
    : (res: (World, Result<map<string, Json>>))
    ensures OnlySends(w, res.0) && |w.sent| + 1 <= |res.0.sent| <= |w.sent| + 2
    ensures res.0.sent[|w.sent|] == ProbeRequest(w.transport, base)
    ensures res.1.Success? ==>
              && |res.0.sent| == |w.sent| + 2
              && res.0.sent[|w.sent| + 1]
                   == Request(w.transport, GET, SearchUrl(url, desc), MergeParams(searchFields, params), map[], None)
              && "data" in res.1.value && "error" !in res.1.value
  {
    var (w1, guard) := GuardSpec(reply, base, w, "_search");
    if guard.Failure? then (w1, Failure(guard.error))
    else RestSpec(reply, w1, "get", SearchUrl(url, desc), MergeParams(searchFields, params))
  }

  /** `search`: the matching objects, one per element of the response's `data`. */
  function SearchSpec(reply: Oracle, url: string, base: string, w: World, desc: Descriptor,
                      searchFields: map<string, string>, params: map<string, string>)
    : (res: (World, Result<seq<map<string, Json>>>))
    ensures OnlySends(w, res.0) && |w.sent| + 1 <= |res.0.sent| <= |w.sent| + 2
    ensures res.1.Success? ==> |res.0.sent| == |w.sent| + 2
    ensures res.1.Success? ==> forall i :: 0 <= i < |res.1.value| ==> Listed(desc, res.1.value[i])
  {
    var (w1, raw) := SearchRawSpec(reply, url, base, w, desc, searchFields, params);
    match raw
    case Failure(e) => (w1, Failure(e))
    case Success(resp) => (w1, ConvertAll(desc, Data(resp)))
  }

  /** A search sends the probe, then (if that passes) the GET of
      `url/endpoint/search` with the merged parameters, and nothing else. */
  lemma SearchRequests(reply: Oracle, url: string, base: string, w: World, desc: Descriptor,
                       searchFields: map<string, string>, params: map<string, string>)
    ensures var (w1, guard) := GuardSpec(reply, base, w, "_search");
            var (w2, r) := SearchRawSpec(reply, url, base, w, desc, searchFields, params);
            && (guard.Failure? ==> w2 == w1 && r == Failure(guard.error))
            && (guard.Success? ==>
                  && w2 == w1.(sent := w1.sent + [Request(w.transport, GET, url + "/" + desc.endpoint + "/search",
                                                          MergeParams(searchFields, params), map[], None)])
                  && r == Classify(reply(|w1.sent|, w2.sent[|w1.sent|])))
  {
  }

  /** A search that succeeds yields one object per element of `data`, in order. */
  lemma SearchKeepsOrder(reply: Oracle, url: string, base: string, w: World, desc: Descriptor,
                         searchFields: map<string, string>, params: map<string, string>)
    requires SearchSpec(reply, url, base, w, desc, searchFields, params).1.Success?
    ensures SearchRawSpec(reply, url, base, w, desc, searchFields, params).1.Success?
    ensures var resp := SearchRawSpec(reply, url, base, w, desc, searchFields, params).1.value;
            var found := SearchSpec(reply, url, base, w, desc, searchFields, params).1.value;
            resp["data"].JArr? ==>
              && |found| == |resp["data"].items|
              && forall i :: 0 <= i < |found| ==> Some(found[i]) == Converted(desc, resp["data"].items[i])
  {
  }

  /** The attributes `from_json` gives an element, when it gives any. */
  function Converted(desc: Descriptor, item: Json): Option<map<string, Json>> {
    var r := FromJsonSpec(desc, item);
    if r.Success? then Some(r.value) else None
  }

  method SearchRaw(reg: Registry, net: Network, desc: Descriptor,
                   searchFields: map<string, string>, params: map<string, string>)
    returns (r: Result<map<string, Json>>)
    modifies net, reg.Held()
    ensures reg.current.None? ==> r == Failure(NoSession(UninitializedMessage)) && unchanged(net)
    ensures reg.current.Some? ==>
              var s := reg.current.value;
              (WorldOf(net, s), r)
                == SearchRawSpec(net.reply, s.url, s.baseUrl, old(WorldOf(net, s)), desc, searchFields, params)
  {
    var guard := Authenticated(reg, net, "_search");
    if guard.Failure? {
      return Failure(guard.error);
    }
    var merged := MergeParams(searchFields, params);
    r := RestTransaction(reg, net, "get", SearchUrl(guard.value.url, desc), merged);
  }

  method Search(reg: Registry, net: Network, desc: Descriptor,
                searchFields: map<string, string>, params: map<string, string>)
    returns (r: Result<seq<Resource>>)
    modifies net, reg.Held()
    ensures reg.current.None? ==> r == Failure(NoSession(UninitializedMessage)) && unchanged(net)
    ensures reg.current.Some? ==>
              var s := reg.current.value;
              var spec := SearchSpec(net.reply, s.url, s.baseUrl, old(WorldOf(net, s)), desc, searchFields, params);
              WorldOf(net, s) == spec.0 && HoldsAll(r, spec.1, desc)
    ensures r.Success? ==> forall i :: 0 <= i < |r.value| ==> fresh(r.value[i])
  {
    var raw := SearchRaw(reg, net, desc, searchFields, params);
    if raw.Failure? {
      return Failure(raw.error);
    }
    r := ConvertData(desc, Data(raw.value));
  }

  // ---------------------------------------------------------------------------
  // get

  /** The value `get` gives the `fields` parameter: the kind's field names
      joined with commas, in declared order. */
  function FieldsParam(desc: Descriptor): string {
    Join(desc.fields, ",")
  }

  /** The field list can be read back from the `fields` parameter. */
  lemma FieldsParamLists(desc: Descriptor)
    requires |desc.fields| >= 1
    requires forall i :: 0 <= i < |desc.fields| ==> ',' !in desc.fields[i]
    ensures Split(FieldsParam(desc), ',') == desc.fields
  {
    SplitJoin(desc.fields, ',');
  }

  /** The parameters `get` passes on: those given, with `fields` set to every
      field of the kind when `allfields` is true. */
  function GetParams(desc: Descriptor, allFields: bool, given: map<string, string>): (p: map<string, string>)
    ensures p.Keys == given.Keys + (if allFields then {FieldsKey} else {})
    ensures allFields ==> p[FieldsKey] == FieldsParam(desc)
    ensures forall k :: k in given && (k != FieldsKey || !allFields) ==> p[k] == given[k]
  {
    if allFields then given[FieldsKey := FieldsParam(desc)] else given
  }

  /** `_get`: guarded; one GET of `url/endpoint/id`. */
  function GetRawSpec(reply: Oracle, url: string, base: string, w: World, desc: Descriptor,
                      id: string, params: map<string, string>)
    : (res: (World, Result<map<string, Json>>))
    ensures OnlySends(w, res.0) && |w.sent| + 1 <= |res.0.sent| <= |w.sent| + 2
    ensures res.0.sent[|w.sent|] == ProbeRequest(w.transport, base)
    ensures res.1.Success? ==>
              && |res.0.sent| == |w.sent| + 2
              && res.0.sent[|w.sent| + 1] == Request(w.transport, GET, ItemUrl(url, desc, id), params, map[], None)
              && "data" in res.1.value && "error" !in res.1.value
  {
    var (w1, guard) := GuardSpec(reply, base, w, "_get");
    if guard.Failure? then (w1, Failure(guard.error))
    else RestSpec(reply, w1, "get", ItemUrl(url, desc, id), params)
  }

  /** The object `get` returns once its `log.info` line has formatted it:
      formatting calls `str` on the object, which raises for an id that is not
      a string. */
  function Logged(conv: Result<map<string, Json>>): (r: Result<map<string, Json>>)
    ensures conv.Failure? ==> r == conv
    ensures conv.Success? ==> (r == conv <==> StrOf(conv.value).Success?)
    ensures conv.Success? && r != conv ==> r == Failure(TypeError)
  {
    if conv.Success? && StrOf(conv.value).Failure? then Failure(TypeError) else conv
  }

  /** `get`: the object built from the response's `data`. */
  function GetSpec(reply: Oracle, url: string, base: string, w: World, desc: Descriptor,
                   id: string, allFields: bool, given: map<string, string>)
    : (res: (World, Result<map<string, Json>>))
    ensures OnlySends(w, res.0) && |w.sent| + 1 <= |res.0.sent| <= |w.sent| + 2
    ensures res.1.Success? ==>
              && |res.0.sent| == |w.sent| + 2
              && res.0.sent[|w.sent| + 1].url == ItemUrl(url, desc, id)
              && Listed(desc, res.1.value)
              && ("id" in res.1.value ==> res.1.value["id"].JStr?)
  {
    var (w1, raw) := GetRawSpec(reply, url, base, w, desc, id, GetParams(desc, allFields, given));
    match raw
    case Failure(e) => (w1, Failure(e))
    case Success(resp) => (w1, Logged(FromJsonSpec(desc, Data(resp))))
  }

  /** A get sends the probe, then (if that passes) the GET of `url/endpoint/id`,
      with every field named when `allfields` is true. */
  lemma GetRequests(reply: Oracle, url: string, base: string, w: World, desc: Descriptor,
                    id: string, allFields: bool, given: map<string, string>)
    ensures var (w1, guard) := GuardSpec(reply, base, w, "_get");
            var (w2, r) := GetSpec(reply, url, base, w, desc, id, allFields, given);
            var req := Request(w.transport, GET, url + "/" + desc.endpoint + "/" + id,
                               GetParams(desc, allFields, given), map[], None);
            && (guard.Failure? ==> w2 == w1 && r == Failure(guard.error))
            && (guard.Success? ==> w2 == w1.(sent := w1.sent + [req]))
            && (guard.Success? && Classify(reply(|w1.sent|, req)).Success? ==>
                  r == Logged(FromJsonSpec(desc, Data(Classify(reply(|w1.sent|, req)).value))))
  {
  }

  /** A fetched record whose `id` is not a string makes `get` raise TypeError
      after the GET, when it formats the object for the log. */
  lemma GetNonStringId(reply: Oracle, url: string, base: string, w: World, desc: Descriptor,
                       id: string, allFields: bool, given: map<string, string>)
    requires GetRawSpec(reply, url, base, w, desc, id, GetParams(desc, allFields, given)).1.Success?
    requires var resp := GetRawSpec(reply, url, base, w, desc, id, GetParams(desc, allFields, given)).1.value;
             var data := Data(resp);
             && data.JObj? && "objCode" in data.fields
             && "ID" in data.fields && "ID" in desc.fields && !data.fields["ID"].JStr?
    ensures GetSpec(reply, url, base, w, desc, id, allFields, given)
              == (GetRawSpec(reply, url, base, w, desc, id, GetParams(desc, allFields, given)).0, Failure(TypeError))
  {
    var resp := GetRawSpec(reply, url, base, w, desc, id, GetParams(desc, allFields, given)).1.value;
    var attrs := FromJsonSpec(desc, Data(resp)).value;
    assert Lower("ID") == "id";
    assert "id" in attrs && attrs["id"] == Data(resp).fields["ID"];
  }

  /** A caller's parameter dictionary, which `get` may change in place. */
  class ParamDict {
    var items: map<string, string>

    constructor (items: map<string, string>)
      ensures this.items == items
    {
      this.items := items;
    }
  }

  function Frame(params: Option<ParamDict>): set<object> {
    if params.Some? then {params.value} else {}
  }

  /** An object realises converted attributes. */
  ghost predicate Holds(r: Result<Resource>, spec: Result<map<string, Json>>, desc: Descriptor)
    reads if r.Success? then {r.value} else {}
  {
    match spec
    case Failure(e) => r == Failure(e)
    case Success(attrs) => r.Success? && r.value.desc == desc && r.value.attrs == attrs && !r.value.dirty
  }

  method GetRaw(reg: Registry, net: Network, desc: Descriptor, id: string, params: map<string, string>)
    returns (r: Result<map<string, Json>>)
    modifies net, reg.Held()
    ensures reg.current.None? ==> r == Failure(NoSession(UninitializedMessage)) && unchanged(net)
    ensures reg.current.Some? ==>
              var s := reg.current.value;
              (WorldOf(net, s), r) == GetRawSpec(net.reply, s.url, s.baseUrl, old(WorldOf(net, s)), desc, id, params)
  {
    var guard := Authenticated(reg, net, "_get");
    if guard.Failure? {
      return Failure(guard.error);
    }
    r := RestTransaction(reg, net, "get", ItemUrl(guard.value.url, desc, id), params);
  }

  /** `get(id, allfields, params)`. A non-empty dictionary the caller passes
      receives the `fields` entry itself; an empty one is replaced by a new one. */
  method Get(reg: Registry, net: Network, desc: Descriptor, id: string, allFields: bool, params: Option<ParamDict>)
    returns (r: Result<Resource>)
    modifies net, reg.Held(), Frame(params)
    ensures var given := if params.Some? then old(params.value.items) else map[];
            params.Some? ==>
              params.value.items == if given != map[] && allFields then given[FieldsKey := FieldsParam(desc)] else given
    ensures reg.current.None? ==> r == Failure(NoSession(UninitializedMessage)) && unchanged(net)
    ensures reg.current.Some? ==>
              var s := reg.current.value;
              var given := if params.Some? then old(params.value.items) else map[];
              var spec := GetSpec(net.reply, s.url, s.baseUrl, old(WorldOf(net, s)), desc, id, allFields, given);
              WorldOf(net, s) == spec.0 && Holds(r, spec.1, desc)
    ensures r.Success? ==> fresh(r.value)
  {
    var query: map<string, string>;
    if params.Some? && params.value.items != map[] {
      if allFields {
        params.value.items := params.value.items[FieldsKey := FieldsParam(desc)];
      }
      query := params.value.items;
    } else {
      query := GetParams(desc, allFields, map[]);
    }
    var raw := GetRaw(reg, net, desc, id, query);
    if raw.Failure? {
      return Failure(raw.error);
    }
    r := FromJson(desc, Data(raw.value));
    if r.Success? {
      // `log.info` formats the object, which calls `str` on it
      var shown := r.value.Str();
      if shown.Failure? {
        return Failure(shown.error);
      }
    }
  }
}
