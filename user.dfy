/** The User resource (pyattask/user.py). */
module User {
  import opened Values
  import opened Errors
  import opened Text
  import opened Http
  import opened Session
  import opened Decorators
  import opened Objects

  /** The API fields a User recognises, in declared order. */
  const Fields: seq<string> := ["ID", "name", "objCode", "homeGroupID", "homeTeamID", "username"]

  /** No two of the six fields differ only in case, so `from_json` keeps six distinct keys. */
  lemma FieldsCaseDistinct()
    ensures CaseDistinct(Fields)
  {
    forall a, b | a in Fields && b in Fields && Lower(a) == Lower(b)
      ensures a == b
    {
      assert |a| == |b|;
    }
  }

  const Kind: Descriptor := (FieldsCaseDistinct(); ResourceKind("user", "USER", Fields, "User"))

  lemma KindConstants(url: string)
    ensures Kind.endpoint == "user" && Kind.objCode == "USER" && |Kind.fields| == 6
    ensures SearchUrl(url, Kind) == url + "/user/search"
  {
  }

  /** The `fields` parameter names exactly the six fields, in declared order. */
  lemma FieldsParamNamesFields()
    ensures Split(FieldsParam(Kind), ',') == Fields
  {
    FieldsWithoutComma();
    FieldsParamLists(Kind);
  }

  lemma FieldsWithoutComma()
    ensures forall i :: 0 <= i < |Fields| ==> ',' !in Fields[i]
  {
    assert forall f :: f in Fields ==> ',' !in f;
  }

  /** `User(attrs=...)`. */
  method New(attrs: map<string, Json>) returns (u: Resource)
    ensures fresh(u) && u.desc == Kind && u.attrs == attrs && !u.dirty
  {
    u := new Resource(Kind, attrs);
  }

  /** `current_user`: guarded; fetches the record of the user the guard's probe
      named, with every field. */
  function CurrentUserSpec(reply: Oracle, url: string, base: string, w: World): (res: (World, Result<map<string, Json>>))
    ensures OnlySends(w, res.0) && |w.sent| + 1 <= |res.0.sent| <= |w.sent| + 3
    ensures res.0.sent[|w.sent|] == ProbeRequest(w.transport, base)
    ensures res.1.Success? ==> |res.0.sent| == |w.sent| + 3 && Listed(Kind, res.1.value)
    ensures res.1.Success? && "id" in res.1.value ==> res.1.value["id"].JStr?
  {
    var (w1, guard) := GuardSpec(reply, base, w, "current_user");
    if guard.Failure? then (w1, Failure(guard.error))
    else
      var res := GetSpec(reply, url, base, w1, Kind, w1.userid.value, true, map[]);
      assert res.0.sent[..|w.sent|] == res.0.sent[..|w1.sent|][..|w.sent|];
      res
  }

  /** An unauthenticated session gets an AuthenticationError and no GET. */
  lemma CurrentUserUnauthenticated(reply: Oracle, url: string, base: string, w: World)
    requires ProbeSpec(reply, base, w).1 == Success(false)
    ensures CurrentUserSpec(reply, url, base, w)
              == (ProbeSpec(reply, base, w).0, Failure(AuthenticationError("current_user")))
  {
  }

  /** After its own probe passes, `current_user` probes again inside `get` and
      then requests `url/user/<id>` with every field, where the id is the one the
      first probe's response named. */
  lemma CurrentUserRequests(reply: Oracle, url: string, base: string, w: World)
    requires GuardSpec(reply, base, w, "current_user").1.Success?
    ensures var probe := ProbeRequest(w.transport, base);
            var uid := reply(|w.sent|, probe).headers[UseridHeader];
            var w1 := GuardSpec(reply, base, w, "current_user").0;
            var (w2, r) := CurrentUserSpec(reply, url, base, w);
            && |w2.sent| >= |w.sent| + 2
            && w2.sent[..|w.sent| + 2] == w.sent + [probe, probe]
            && (GuardSpec(reply, base, w1, "_get").1.Success? ==>
                  w2.sent == w.sent + [probe, probe,
                    Request(w.transport, GET, url + "/user/" + uid, map[FieldsKey := FieldsParam(Kind)], map[], None)])
  {
    GuardPasses(reply, base, w, "current_user");
    var uid := reply(|w.sent|, ProbeRequest(w.transport, base)).headers[UseridHeader];
    assert ItemUrl(url, Kind, uid) == url + "/user/" + uid by {
      assert Kind.endpoint == "user";
      assert url + "/" + "user" + "/" + uid == url + ("/" + "user" + "/") + uid;
      assert "/" + "user" + "/" == "/user/";
    }
    assert GetParams(Kind, true, map[]) == map[FieldsKey := FieldsParam(Kind)];
  }

  method CurrentUser(reg: Registry, net: Network) returns (r: Result<Resource>)
    modifies net, reg.Held()
    ensures reg.current.None? ==> r == Failure(NoSession(UninitializedMessage)) && unchanged(net)
    ensures reg.current.Some? ==>
              var s := reg.current.value;
              var spec := CurrentUserSpec(net.reply, s.url, s.baseUrl, old(WorldOf(net, s)));
              WorldOf(net, s) == spec.0 && Holds(r, spec.1, Kind)
    ensures r.Success? ==> fresh(r.value)
  {
    var guard := Authenticated(reg, net, "current_user");
    if guard.Failure? {
      return Failure(guard.error);
    }
    var userid := guard.value.userid.value;
    r := Get(reg, net, Kind, userid, true, None);
  }
}
