/** The `@authenticated` guard (pyattask/decorators.py). */
module Decorators {
  import opened Values
  import opened Errors
  import opened Http
  import opened Session

  /** What the guard does before the decorated function `name` runs: probe the
      current session once; raise AuthenticationError(name) when it is not
      authenticated, and let a probe's own exception through. */
  function GuardSpec(reply: Oracle, base: string, w: World, name: string): (res: (World, Result<()>))
    ensures res.0 == ProbeSpec(reply, base, w).0
    ensures res.0.sent == w.sent + [ProbeRequest(w.transport, base)]
    ensures res.1.Success? <==> ProbeSpec(reply, base, w).1 == Success(true)
    ensures ProbeSpec(reply, base, w).1 == Success(false) ==> res.1 == Failure(AuthenticationError(name))
    ensures ProbeSpec(reply, base, w).1.Failure? ==> res.1 == Failure(ProbeSpec(reply, base, w).1.error)
    ensures res.1.Success? ==> res.0.userid.Some?
  {
    var (w1, probe) := ProbeSpec(reply, base, w);
    match probe
    case Failure(e) => (w1, Failure(e))
    case Success(true) => (w1, Success(()))
    case Success(false) => (w1, Failure(AuthenticationError(name)))
  }

  /** The guard passes exactly when the probe's response is a 200 naming a user,
      and the user id it leaves behind is the one that response names. */
  lemma GuardPasses(reply: Oracle, base: string, w: World, name: string)
    ensures var resp := reply(|w.sent|, ProbeRequest(w.transport, base));
            var (w1, g) := GuardSpec(reply, base, w, name);
            (g.Success? <==> resp.status == 200 && UseridHeader in resp.headers)
            && (g.Success? ==> w1.userid == Some(resp.headers[UseridHeader]))
            && (g.Failure? ==> w1.userid == w.userid)
  {
  }

  /** Two guarded calls in a row probe twice: nothing is remembered between them. */
  lemma GuardProbesEveryCall(reply: Oracle, base: string, w: World, first: string, second: string)
    ensures var w1 := GuardSpec(reply, base, w, first).0;
            var w2 := GuardSpec(reply, base, w1, second).0;
            w2.sent == w.sent + [ProbeRequest(w.transport, base), ProbeRequest(w.transport, base)]
  {
  }

  /** The guard around `name`: the current session when it is authenticated, for
      the decorated function to run with. */
  method Authenticated(reg: Registry, net: Network, name: string) returns (r: Result<AtTaskSession>)
    modifies net, reg.Held()
    ensures reg.current.None? ==> r == Failure(NoSession(UninitializedMessage)) && unchanged(net)
    ensures reg.current.Some? ==>
              var s := reg.current.value;
              var g := GuardSpec(net.reply, s.baseUrl, old(WorldOf(net, s)), name);
              && WorldOf(net, s) == g.0
              && (r.Success? <==> g.1.Success?)
              && (r.Success? ==> r.value == s)
              && (r.Failure? ==> r.error == g.1.error)
  {
    var current := reg.GetSession();
    if current.Failure? {
      return Failure(current.error);
    }
    var s := current.value;
    var probe := s.IsAuthenticated(net);
    if probe.Failure? {
      return Failure(probe.error);
    } else if !probe.value {
      return Failure(AuthenticationError(name));
    }
    return Success(s);
  }
}
