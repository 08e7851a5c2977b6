/** What apiAuthFlow.authorize does with and without a cached session. */
module ApiFlowFacts {
  import opened Wrappers
  import opened Errors
  import opened Contexts
  import opened Descriptors
  import opened Environment
  import opened Engine
  import opened EngineFacts
  import opened ApiFlow

  /** With an empty cache the flow cannot get past the phone sign-up: the
      session it attached to the context is not what executeCommon reads. */
  lemma {:induction false} ApiFlowNeedsCachedSession(cfg: Config, ctx: Context, s: State, e0: Envelope)
    requires !ctx.cancelled && Live(s.world, 2) && s.session.None?
    requires s.world.replies != [] && Accepts(NewSession, s.world.replies[0], e0)
    ensures ApiAuthorizeOutcome(cfg, ctx, s) ==
      Outcome(Failure(Wrapped("phone sign up", Wrapped("get sessionid", Unauthorized))), Sent(cfg, NewSession, ctx, "", s))
  {
    ExecuteDelivers(cfg, BodyExcerpt, NewSession, ctx, s, e0);
    var s1 := Sent(cfg, NewSession, ctx, "", s);
    ExecuteCheckUnauthorized(cfg, BodyExcerpt, PhoneSignUp(cfg.credential.phone), WithSession(ctx, Some(e0.payload)), s1);
  }

  /** The last two steps, with a cached session, send that session under
      the lock and return the new one. */
  lemma {:induction false} ApiFinishUsesCachedSession(cfg: Config, c: Context, id: string, s: State, e3: Envelope, e4: Envelope)
    requires !c.cancelled && Live(s.world, 2) && s.session.Some?
    requires |s.world.replies| >= 2
    requires Accepts(PasswordSignUp(cfg.credential.password), s.world.replies[0], e3)
    requires Accepts(LevelUp, s.world.replies[1], e4)
    ensures var r := ApiFinishOutcome(cfg, c, id, s);
      var old_id := s.session.value;
      r.result == Success(id) && r.state.session == s.session &&
      r.state.world.replies == s.world.replies[2..] &&
      r.state.world.log == s.world.log + [
        Request(cfg, PasswordSignUp(cfg.credential.password), c.(locked := true), old_id),
        Request(cfg, LevelUp, c.(locked := true), old_id)]
  {
    var x := PasswordSignUp(cfg.credential.password);
    var old_id := s.session.value;
    ExecuteDelivers(cfg, BodyExcerpt, x, c, s, e3);
    var s1 := Sent(cfg, x, c.(locked := true), old_id, s);
    ExecuteDelivers(cfg, BodyExcerpt, LevelUp, c, s1, e4);
    assert s.world.replies[1..][1..] == s.world.replies[2..];
  }

  /** From the code submission on, with a cached session. */
  lemma {:induction false} ApiConfirmUsesCachedSession(cfg: Config, c: Context, id: string, ticket: string, code: string,
                                                        s: State, e2: Envelope, e3: Envelope, e4: Envelope)
    requires !c.cancelled && Live(s.world, 3) && s.session.Some?
    requires |s.world.replies| >= 3
    requires Accepts(Confirm("sign_up", ticket, code), s.world.replies[0], e2)
    requires Accepts(PasswordSignUp(cfg.credential.password), s.world.replies[1], e3)
    requires Accepts(LevelUp, s.world.replies[2], e4)
    ensures var r := ApiConfirmOutcome(cfg, c, id, ticket, code, s);
      var old_id := s.session.value;
      r.result == Success(id) && r.state.session == s.session &&
      r.state.world.replies == s.world.replies[3..] &&
      r.state.world.log == s.world.log + [
        Request(cfg, Confirm("sign_up", ticket, code), c.(locked := true), old_id),
        Request(cfg, PasswordSignUp(cfg.credential.password), c.(locked := true), old_id),
        Request(cfg, LevelUp, c.(locked := true), old_id)]
  {
    var x := Confirm("sign_up", ticket, code);
    var old_id := s.session.value;
    ExecuteDelivers(cfg, BodyExcerpt, x, c, s, e2);
    var s1 := Sent(cfg, x, c.(locked := true), old_id, s);
    assert s.world.replies[1..][2..] == s.world.replies[3..];
    ApiFinishUsesCachedSession(cfg, c, id, s1, e3, e4);
  }

  /** From the phone sign-up on, with a cached session: the code is asked
      for between the sign-up and its confirmation. */
  lemma {:induction false} ApiSignUpUsesCachedSession(cfg: Config, c: Context, id: string, s: State,
                                                       e1: Envelope, e2: Envelope, e3: Envelope, e4: Envelope, code: string)
    requires !c.cancelled && Live(s.world, 5) && s.session.Some?
    requires |s.world.replies| >= 4
    requires Accepts(PhoneSignUp(cfg.credential.phone), s.world.replies[0], e1)
    requires Accepts(Confirm("sign_up", e1.operationTicket, code), s.world.replies[1], e2)
    requires Accepts(PasswordSignUp(cfg.credential.password), s.world.replies[2], e3)
    requires Accepts(LevelUp, s.world.replies[3], e4)
    requires s.world.codes != [] && s.world.codes[0] == Some(code)
    ensures var r := ApiSignUpOutcome(cfg, c, id, s);
      var old_id := s.session.value;
      var l := c.(locked := true);
      r.result == Success(id) && r.state.session == s.session &&
      r.state.world.replies == s.world.replies[4..] &&
      r.state.world.log == s.world.log + [
        Request(cfg, PhoneSignUp(cfg.credential.phone), l, old_id),
        CodeAsked(cfg.credential.phone),
        Request(cfg, Confirm("sign_up", e1.operationTicket, code), l, old_id),
        Request(cfg, PasswordSignUp(cfg.credential.password), l, old_id),
        Request(cfg, LevelUp, l, old_id)]
  {
    var phone := cfg.credential.phone;
    var x := PhoneSignUp(phone);
    var old_id := s.session.value;
    ExecuteDelivers(cfg, BodyExcerpt, x, c, s, e1);
    var s1 := Sent(cfg, x, c.(locked := true), old_id, s);
    var s2 := s1.(world := AfterCode(phone, s1.world));
    assert NextCode(s1.world) == Some(code);
    assert ApiSignUpOutcome(cfg, c, id, s) == ApiConfirmOutcome(cfg, c, id, e1.operationTicket, code, s2);
    assert s.world.replies[1..][3..] == s.world.replies[4..];
    ApiConfirmUsesCachedSession(cfg, c, id, e1.operationTicket, code, s2, e2, e3, e4);
    var l := c.(locked := true);
    TwoThenThree(s.world.log, s1.world.log, s2.world.log, ApiConfirmOutcome(cfg, c, id, e1.operationTicket, code, s2).state.world.log,
                 Request(cfg, x, l, old_id), CodeAsked(phone),
                 Request(cfg, Confirm("sign_up", e1.operationTicket, code), l, old_id),
                 Request(cfg, PasswordSignUp(cfg.credential.password), l, old_id),
                 Request(cfg, LevelUp, l, old_id));
  }

  /** With a cached session the flow returns the new session ID, but every
      later step is sent with the cached one, and the cache keeps it. */
  lemma {:induction false} ApiFlowUsesCachedSession(cfg: Config, ctx: Context, s: State,
                                                     e0: Envelope, e1: Envelope, e2: Envelope, e3: Envelope, e4: Envelope, code: string)
    requires !ctx.cancelled && Live(s.world, 6) && s.session.Some?
    requires |s.world.replies| >= 5
    requires Accepts(NewSession, s.world.replies[0], e0)
    requires Accepts(PhoneSignUp(cfg.credential.phone), s.world.replies[1], e1)
    requires Accepts(Confirm("sign_up", e1.operationTicket, code), s.world.replies[2], e2)
    requires Accepts(PasswordSignUp(cfg.credential.password), s.world.replies[3], e3)
    requires Accepts(LevelUp, s.world.replies[4], e4)
    requires s.world.codes != [] && s.world.codes[0] == Some(code)
    ensures var r := ApiAuthorizeOutcome(cfg, ctx, s);
      var old_id := s.session.value;
      var c := WithSession(ctx, Some(e0.payload)).(locked := true);
      r.result == Success(e0.payload) && r.state.session == s.session &&
      r.state.world.replies == s.world.replies[5..] &&
      r.state.world.log == s.world.log + [
        Request(cfg, NewSession, ctx, ""),
        Request(cfg, PhoneSignUp(cfg.credential.phone), c, old_id),
        CodeAsked(cfg.credential.phone),
        Request(cfg, Confirm("sign_up", e1.operationTicket, code), c, old_id),
        Request(cfg, PasswordSignUp(cfg.credential.password), c, old_id),
        Request(cfg, LevelUp, c, old_id)]
  {
    var id := e0.payload;
    var ctx1 := WithSession(ctx, Some(id));
    ExecuteDelivers(cfg, BodyExcerpt, NewSession, ctx, s, e0);
    var s1 := Sent(cfg, NewSession, ctx, "", s);
    assert ApiAuthorizeOutcome(cfg, ctx, s) == ApiSignUpOutcome(cfg, ctx1, id, s1);
    assert s.world.replies[1..][4..] == s.world.replies[5..];
    ApiSignUpUsesCachedSession(cfg, ctx1, id, s1, e1, e2, e3, e4, code);
    var old_id := s.session.value;
    var c := ctx1.(locked := true);
    OneThenFive(s.world.log, s1.world.log, ApiSignUpOutcome(cfg, ctx1, id, s1).state.world.log,
                Request(cfg, NewSession, ctx, ""),
                Request(cfg, PhoneSignUp(cfg.credential.phone), c, old_id),
                CodeAsked(cfg.credential.phone),
                Request(cfg, Confirm("sign_up", e1.operationTicket, code), c, old_id),
                Request(cfg, PasswordSignUp(cfg.credential.password), c, old_id),
                Request(cfg, LevelUp, c, old_id));
  }

  /** The flow stops at its first failing step: the failure is wrapped with
      that step's name, the state is the one that step left, and nothing
      after it is sent or asked for. */
  lemma ApiAuthorizeStopsEarly(cfg: Config, ctx: Context, s: State)
    ensures var r := ApiAuthorizeOutcome(cfg, ctx, s);
      var got := ExecuteOutcome(cfg, BodyExcerpt, NewSession, ctx, s);
      && (got.result.Failure? ==> r == Outcome(Failure(Wrapped("get new sessionid", got.result.error)), got.state))
      && (got.result.Success? ==>
        var c := WithSession(ctx, Some(got.result.value.payload));
        var phone := ExecuteOutcome(cfg, BodyExcerpt, PhoneSignUp(cfg.credential.phone), c, got.state);
        && (phone.result.Failure? ==> r == Outcome(Failure(Wrapped("phone sign up", phone.result.error)), phone.state))
        && (phone.result.Success? ==>
          var code := NextCode(phone.state.world);
          var s2 := phone.state.(world := AfterCode(cfg.credential.phone, phone.state.world));
          && (code.None? ==> r == Outcome(Failure(Wrapped("get confirmation code", Foreign("confirmation provider"))), s2))
          && (code.Some? ==>
            var confirmed := ExecuteOutcome(cfg, BodyExcerpt, Confirm("sign_up", phone.result.value.operationTicket, code.value), c, s2);
            && (confirmed.result.Failure? ==>
                  r == Outcome(Failure(Wrapped("submit confirmation code", confirmed.result.error)), confirmed.state))
            && (confirmed.result.Success? ==>
              var password := ExecuteOutcome(cfg, BodyExcerpt, PasswordSignUp(cfg.credential.password), c, confirmed.state);
              && (password.result.Failure? ==>
                    r == Outcome(Failure(Wrapped("password sign up", password.result.error)), password.state))
              && (password.result.Success? ==>
                var levelUp := ExecuteOutcome(cfg, BodyExcerpt, LevelUp, c, password.state);
                levelUp.result.Failure? ==> r == Outcome(Failure(Wrapped("level up", levelUp.result.error)), levelUp.state))))))
  {
    var got := ExecuteOutcome(cfg, BodyExcerpt, NewSession, ctx, s);
    if got.result.Success? {
      var id := got.result.value.payload;
      var c := WithSession(ctx, Some(id));
      assert ApiAuthorizeOutcome(cfg, ctx, s) == ApiSignUpOutcome(cfg, c, id, got.state);
      var phone := ExecuteOutcome(cfg, BodyExcerpt, PhoneSignUp(cfg.credential.phone), c, got.state);
      var code := NextCode(phone.state.world);
      var s2 := phone.state.(world := AfterCode(cfg.credential.phone, phone.state.world));
      if phone.result.Success? && code.Some? {
        var ticket := phone.result.value.operationTicket;
        assert ApiSignUpOutcome(cfg, c, id, got.state) == ApiConfirmOutcome(cfg, c, id, ticket, code.value, s2);
        var confirmed := ExecuteOutcome(cfg, BodyExcerpt, Confirm("sign_up", ticket, code.value), c, s2);
        if confirmed.result.Success? {
          assert ApiConfirmOutcome(cfg, c, id, ticket, code.value, s2) == ApiFinishOutcome(cfg, c, id, confirmed.state);
        }
      }
    }
  }
}
