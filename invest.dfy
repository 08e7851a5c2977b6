/** The secondary ("invest") protocol: executeInvest of invest.go, its status
    classifier and its one re-authorization on a possibly expired session. */
module Invest {
  import opened Wrappers
  import opened Errors
  import opened Contexts
  import opened Descriptors
  import opened Environment
  import opened Engine

  /** The decision executeInvest takes on one reply. */
  datatype InvestVerdict =
    | Payload(payload: string)           // status 200, decoded
    | Fault(error: Error)                // terminal
    | MaybeExpired(fault: InvestError)   // error code "404": the session may have expired

  /** A 4xx/5xx reply whose body could be read. */
  predicate ErrorBody(reply: Reply) {
    reply.Answer? && 400 <= reply.code < 600 && reply.body.text.Some?
  }

  const AppName := "invest"
  const AppVersion := "1.328.0"

  /** The status classifier of executeInvest. */
  function ClassifyInvest(reply: Reply): (v: InvestVerdict)
    ensures v.Payload? <==> reply.Answer? && reply.code == 200 && reply.body.payload.Some?
    ensures v.Payload? ==> v.payload == reply.body.payload.value
    ensures reply.Answer? && reply.code == 200 && reply.body.payload.None? ==>
              v == Fault(Wrapped("unmarshal response body", Foreign("json")))
    ensures reply.Answer? && 400 <= reply.code < 600 && reply.body.text.None? ==> v == Fault(Status(reply.status))
    ensures ErrorBody(reply) && reply.body.fault.None? ==> v == Fault(Text(Ellipsis(reply.body.text.value)))
    ensures v.MaybeExpired? <==> ErrorBody(reply) && reply.body.fault.Some? && reply.body.fault.value.errorCode == "404"
    ensures v.MaybeExpired? ==> v.fault == reply.body.fault.value
    ensures (ErrorBody(reply) && reply.body.fault.Some? && reply.body.fault.value.errorCode != "404") ==>
              v == Fault(Invest(reply.body.fault.value))
    ensures (reply.Answer? && reply.code != 200 && !(400 <= reply.code < 600)) ==> v == Fault(Status(reply.status))
    ensures reply.Bodiless? ==> v == Fault(Status(reply.status))
    ensures reply.Unreachable? ==> v == Fault(Wrapped("execute request", Foreign(reply.reason)))
  {
    match reply
    case Unreachable(reason) => Fault(Wrapped("execute request", Foreign(reason)))
    case Bodiless(status) => Fault(Status(status))
    case Answer(code, status, body) =>
      if code == 200 then
        if body.payload.Some? then Payload(body.payload.value)
        else Fault(Wrapped("unmarshal response body", Foreign("json")))
      else if 400 <= code < 600 then
        if body.text.None? then Fault(Status(status))
        else if body.fault.None? then Fault(Text(Ellipsis(body.text.value)))
        else if body.fault.value.errorCode == "404" then MaybeExpired(body.fault.value)
        else Fault(Invest(body.fault.value))
      else Fault(Status(status))
  }

  /** The request executeInvest logs: the path, the session ID and the two
      application headers, sent under the lock. */
  function Fetch(x: InvestExchange, sessionId: string): Event {
    Fetched(InvestPath(x), sessionId, AppName, AppVersion, true)
  }

  /** executeInvest: lock, ensure a session, one GET, then classify. A "404"
      with a probe that reports errUnauthorized runs retry.do (budget one, no
      backoff), authorize, and the whole call again; every other path ends. */
  function ExecuteInvestOutcome(cfg: Config, x: InvestExchange, ctx: Context, s: State): (r: Outcome<string>)
    ensures Advances(s.world, r.state.world)
    ensures Sound(cfg, s.world.log) ==> Sound(cfg, r.state.world.log)
    ensures r.result.Failure? ==> !Is(r.result.error, MaxRetriesExceeded)
    decreases |s.world.replies|, 0
  {
    var c := ctx.(locked := true);
    if Done(c, s.world) then Outcome(Failure(Cancelled), s)
    else
      var ensured := EnsureSessionOutcome(cfg, c, s);
      if ensured.result.Failure? then Outcome(Failure(Wrapped("ensure sessionid", ensured.result.error)), ensured.state)
      else
        var s0 := ensured.state;
        var reply := NextReply(s0.world);
        var s1 := s0.(world := AfterSend(Fetch(x, ensured.result.value), s0.world));
        assert Sound(cfg, s0.world.log) ==> Sound(cfg, s1.world.log) by {
          if Sound(cfg, s0.world.log) { SoundAppend(cfg, s0.world.log, Fetch(x, ensured.result.value)); }
        }
        if reply.None? then Outcome(Failure(Wrapped("execute request", Foreign("no reply"))), s1)
        else
          match ClassifyInvest(reply.value)
          case Payload(p) => Outcome(Success(p), s1)
          case Fault(e) => Outcome(Failure(e), s1)
          case MaybeExpired(fault) => ProbeOutcome(cfg, x, c, fault, s1)
  }

  /** What executeInvest does after a "404": consult the probe, and only on
      errUnauthorized spend the single retry, authorize and call again. */
  function ProbeOutcome(cfg: Config, x: InvestExchange, c: Context, fault: InvestError, s: State): (r: Outcome<string>)
    ensures Advances(s.world, r.state.world)
    ensures Sound(cfg, s.world.log) ==> Sound(cfg, r.state.world.log)
    ensures r.result.Failure? ==> !Is(r.result.error, MaxRetriesExceeded)
    decreases |s.world.replies|, 1
  {
    var probe := NextProbe(s.world);
    var s2 := s.(world := AfterProbe(s.world));
    assert Sound(cfg, s.world.log) ==> Sound(cfg, s2.world.log) by {
      if Sound(cfg, s.world.log) { SoundAppend(cfg, s.world.log, Probed); }
    }
    if probe.None? || !Is(probe.value, Unauthorized) then Outcome(Failure(Invest(fault)), s2)
    else
      var next := RetryStep(ReauthPolicy, c, s2.world);
      var s3 := s2.(world := next.world);
      assert Sound(cfg, s2.world.log) ==> Sound(cfg, s3.world.log) by {
        if Sound(cfg, s2.world.log) { RetryStepSound(cfg, ReauthPolicy, c, s2.world); }
      }
      if next.result.Failure? then Outcome(Failure(Invest(fault)), s3)
      else
        var a := AuthorizeOutcome(cfg, next.result.value, s3);
        if a.result.Failure? then Outcome(Failure(Wrapped("authorize", a.result.error)), a.state)
        else ExecuteInvestOutcome(cfg, x, next.result.value, a.state)
  }

  /** executeInvest on a client. */
  method ExecuteInvest(client: Client, x: InvestExchange, ctx: Context) returns (r: Result<string, Error>)
    modifies client, client.oracle
    decreases |client.oracle.replies|, 0
    ensures Outcome(r, client.Current()) == ExecuteInvestOutcome(client.Settings(), x, ctx, old(client.Current()))
  {
    var c := ctx.(locked := true);
    if Done(c, client.oracle.View()) {
      return Failure(Cancelled);
    }
    var ensured := client.EnsureSessionID(c);
    if ensured.Failure? {
      return Failure(Wrapped("ensure sessionid", ensured.error));
    }
    var reply := client.oracle.Send(Fetch(x, ensured.value));
    if reply.None? {
      return Failure(Wrapped("execute request", Foreign("no reply")));
    }
    match ClassifyInvest(reply.value)
    case Payload(p) => r := Success(p);
    case Fault(e) => r := Failure(e);
    case MaybeExpired(fault) => r := Probe(client, x, c, fault);
  }

  method Probe(client: Client, x: InvestExchange, c: Context, fault: InvestError) returns (r: Result<string, Error>)
    modifies client, client.oracle
    decreases |client.oracle.replies|, 1
    ensures Outcome(r, client.Current()) == ProbeOutcome(client.Settings(), x, c, fault, old(client.Current()))
  {
    ghost var s := client.Current();
    var probe := client.oracle.Probe();
    if probe.None? || !Is(probe.value, Unauthorized) {
      return Failure(Invest(fault));
    }
    ghost var s2 := client.Current();
    var next := client.oracle.RetryDo(ReauthPolicy, c);
    assert Attempt(next, client.Current().world) == RetryStep(ReauthPolicy, c, s2.world) && client.Current().session == s.session;
    if next.Failure? {
      return Failure(Invest(fault));
    }
    var a := client.Authorize(next.value);
    if a.Failure? {
      return Failure(Wrapped("authorize", a.error));
    }
    r := ExecuteInvest(client, x, next.value);
  }
}
