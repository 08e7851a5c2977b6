/** What executeInvest promises, stated over its specification function. */
module InvestFacts {
  import opened Wrappers
  import opened Errors
  import opened Contexts
  import opened Descriptors
  import opened Environment
  import opened Engine
  import opened Invest

  /** The state after the GET was sent with a session ID and its reply consumed. */
  function Fetched1(x: InvestExchange, sessionId: string, s: State): State {
    s.(world := AfterSend(Fetch(x, sessionId), s.world))
  }

  /** A reply with an investError body carrying error code "404". */
  predicate NotFound(reply: Reply, fault: InvestError) {
    ErrorBody(reply) && reply.body.fault == Some(fault) && fault.errorCode == "404"
  }

  /** Status 200 with a decodable body returns the payload from one GET that
      carries the cached session ID. */
  lemma InvestDelivers(cfg: Config, x: InvestExchange, ctx: Context, s: State, p: string)
    requires !Done(ctx, s.world) && s.session.Some?
    requires s.world.replies != [] && s.world.replies[0].Answer? && s.world.replies[0].code == 200
    requires s.world.replies[0].body.payload == Some(p)
    ensures ExecuteInvestOutcome(cfg, x, ctx, s) == Outcome(Success(p), Fetched1(x, s.session.value, s))
  {
  }

  /** A failing session lookup ends the call before any GET. */
  lemma InvestNeedsSession(cfg: Config, x: InvestExchange, ctx: Context, s: State)
    requires !Done(ctx, s.world)
    ensures var e := EnsureSessionOutcome(cfg, ctx.(locked := true), s);
      e.result.Failure? ==>
        ExecuteInvestOutcome(cfg, x, ctx, s) == Outcome(Failure(Wrapped("ensure sessionid", e.result.error)), e.state)
  {
  }

  /** The GET comes right after the session was ensured and carries exactly
      that session ID. */
  lemma {:induction false} InvestSendsEnsuredSession(cfg: Config, x: InvestExchange, ctx: Context, s: State)
    requires !Done(ctx, s.world)
    ensures var e := EnsureSessionOutcome(cfg, ctx.(locked := true), s);
      var r := ExecuteInvestOutcome(cfg, x, ctx, s);
      e.result.Success? ==>
        |r.state.world.log| > |e.state.world.log| && r.state.world.log[|e.state.world.log|] == Fetch(x, e.result.value)
  {
    var e := EnsureSessionOutcome(cfg, ctx.(locked := true), s);
    var r := ExecuteInvestOutcome(cfg, x, ctx, s);
    if e.result.Success? {
      var s1 := Fetched1(x, e.result.value, e.state);
      assert s1.world.log[|e.state.world.log|] == Fetch(x, e.result.value);
      assert Advances(s1.world, r.state.world);
    }
  }

  /** A "404" whose probe reports anything but errUnauthorized, and every
      other investError, is returned as it is without a retry. */
  lemma InvestFaultReturned(cfg: Config, x: InvestExchange, ctx: Context, s: State, fault: InvestError)
    requires !Done(ctx, s.world) && s.session.Some?
    requires s.world.replies != [] && ErrorBody(s.world.replies[0]) && s.world.replies[0].body.fault == Some(fault)
    ensures var s1 := Fetched1(x, s.session.value, s);
      var probe := NextProbe(s1.world);
      var r := ExecuteInvestOutcome(cfg, x, ctx, s);
      fault.errorCode != "404" ==> r == Outcome(Failure(Invest(fault)), s1)
    ensures var s1 := Fetched1(x, s.session.value, s);
      var probe := NextProbe(s1.world);
      var r := ExecuteInvestOutcome(cfg, x, ctx, s);
      fault.errorCode == "404" && (probe.None? || !Is(probe.value, Unauthorized)) ==>
        r == Outcome(Failure(Invest(fault)), s1.(world := AfterProbe(s1.world)))
  {
  }

  /** A "404" with an unauthorized probe and an unspent budget: retry.do,
      then authorize, then the whole call again with the spent budget. */
  lemma InvestReauthorizes(cfg: Config, x: InvestExchange, ctx: Context, s: State, fault: InvestError)
    requires !Done(ctx, s.world) && s.session.Some? && ctx.retries == 0
    requires s.world.replies != [] && NotFound(s.world.replies[0], fault)
    requires var s1 := Fetched1(x, s.session.value, s);
      NextProbe(s1.world).Some? && Is(NextProbe(s1.world).value, Unauthorized) && WaitCompletes(s1.world)
    ensures var s1 := Fetched1(x, s.session.value, s);
      var c := ctx.(locked := true, retries := 1);
      var s3 := s1.(world := AfterWait(ReauthPolicy, 0, AfterProbe(s1.world)));
      var a := AuthorizeOutcome(cfg, c, s3);
      ExecuteInvestOutcome(cfg, x, ctx, s) ==
        if a.result.Failure? then Outcome(Failure(Wrapped("authorize", a.result.error)), a.state)
        else ExecuteInvestOutcome(cfg, x, c, a.state)
  {
    var s1 := Fetched1(x, s.session.value, s);
    assert ExecuteInvestOutcome(cfg, x, ctx, s) == ProbeOutcome(cfg, x, ctx.(locked := true), fault, s1);
  }

  /** Once the budget is spent, a "404" with an unauthorized probe returns
      the investError: no wait, no authorize, no further GET. */
  lemma InvestSecondNotFoundIsFinal(cfg: Config, x: InvestExchange, ctx: Context, s: State, fault: InvestError)
    requires !Done(ctx, s.world) && s.session.Some? && ctx.retries >= 1
    requires s.world.replies != [] && NotFound(s.world.replies[0], fault)
    requires var s1 := Fetched1(x, s.session.value, s);
      NextProbe(s1.world).Some? && Is(NextProbe(s1.world).value, Unauthorized)
    ensures var s1 := Fetched1(x, s.session.value, s);
      ExecuteInvestOutcome(cfg, x, ctx, s) == Outcome(Failure(Invest(fault)), s1.(world := AfterProbe(s1.world)))
  {
  }

  /** Exactly one re-authorization per call: two "404"s with unauthorized
      probes and a successful authorize in between return the second
      investError, after exactly two GETs. */
  lemma {:induction false} InvestReauthorizesOnce(cfg: Config, x: InvestExchange, ctx: Context, s: State,
                                                   fault: InvestError, fault2: InvestError)
    requires !Done(ctx, s.world) && s.session.Some? && ctx.retries == 0
    requires s.world.replies != [] && NotFound(s.world.replies[0], fault)
    requires var s1 := Fetched1(x, s.session.value, s);
      NextProbe(s1.world).Some? && Is(NextProbe(s1.world).value, Unauthorized) && WaitCompletes(s1.world)
    requires var s1 := Fetched1(x, s.session.value, s);
      var c := ctx.(locked := true, retries := 1);
      var a := AuthorizeOutcome(cfg, c, s1.(world := AfterWait(ReauthPolicy, 0, AfterProbe(s1.world))));
      a.result.Success? && !Done(c, a.state.world) &&
      a.state.world.replies != [] && NotFound(a.state.world.replies[0], fault2) &&
      var s2 := Fetched1(x, a.state.session.value, a.state);
      NextProbe(s2.world).Some? && Is(NextProbe(s2.world).value, Unauthorized)
    ensures ExecuteInvestOutcome(cfg, x, ctx, s).result == Failure(Invest(fault2))
  {
    var s1 := Fetched1(x, s.session.value, s);
    var c := ctx.(locked := true, retries := 1);
    var a := AuthorizeOutcome(cfg, c, s1.(world := AfterWait(ReauthPolicy, 0, AfterProbe(s1.world))));
    InvestReauthorizes(cfg, x, ctx, s, fault);
    InvestSecondNotFoundIsFinal(cfg, x, c, a.state, fault2);
  }
}
