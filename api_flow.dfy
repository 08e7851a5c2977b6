/** apiAuthFlow.authorize of auth_flow.go: the programmatic login run
    through executeCommon, handing the new session on in the context. */
module ApiFlow {
  import opened Wrappers
  import opened Errors
  import opened Contexts
  import opened Descriptors
  import opened Environment
  import opened Engine

  /** The six steps of apiAuthFlow.authorize. The new session is attached to
      the context of every later step; the requests themselves take their
      session ID from the client's cache, which this flow never writes. */
  function ApiAuthorizeOutcome(cfg: Config, ctx: Context, s: State): (r: Outcome<string>)
    ensures Advances(s.world, r.state.world)
    ensures Sound(cfg, s.world.log) ==> Sound(cfg, r.state.world.log)
    ensures r.result.Failure? ==> r.result.error.Wrapped? && r.result.error.context in AuthorizeSteps
    ensures r.result.Failure? ==> !Is(r.result.error, MaxRetriesExceeded)
  {
    var got := ExecuteOutcome(cfg, BodyExcerpt, NewSession, ctx, s);
    if got.result.Failure? then Outcome(Failure(Wrapped("get new sessionid", got.result.error)), got.state)
    else
      var id := got.result.value.payload;
      ApiSignUpOutcome(cfg, WithSession(ctx, Some(id)), id, got.state)
  }

  /** The flow from the phone sign-up on, under the context that carries
      the new session. */
  function ApiSignUpOutcome(cfg: Config, c: Context, id: string, s: State): (r: Outcome<string>)
    ensures Advances(s.world, r.state.world)
    ensures Sound(cfg, s.world.log) ==> Sound(cfg, r.state.world.log)
    ensures r.result.Failure? ==> r.result.error.Wrapped? && r.result.error.context in AuthorizeSteps
    ensures r.result.Failure? ==> !Is(r.result.error, MaxRetriesExceeded)
    ensures r.result.Success? ==> r.result.value == id
  {
    var phone := ExecuteOutcome(cfg, BodyExcerpt, PhoneSignUp(cfg.credential.phone), c, s);
    if phone.result.Failure? then Outcome(Failure(Wrapped("phone sign up", phone.result.error)), phone.state)
    else
      var code := NextCode(phone.state.world);
      var s2 := phone.state.(world := AfterCode(cfg.credential.phone, phone.state.world));
      assert Sound(cfg, phone.state.world.log) ==> Sound(cfg, s2.world.log) by {
        if Sound(cfg, phone.state.world.log) {
          SoundAppend(cfg, phone.state.world.log, CodeAsked(cfg.credential.phone));
        }
      }
      if code.None? then Outcome(Failure(Wrapped("get confirmation code", Foreign("confirmation provider"))), s2)
      else ApiConfirmOutcome(cfg, c, id, phone.result.value.operationTicket, code.value, s2)
  }

  /** The flow from the submission of the confirmation code on. */
  function ApiConfirmOutcome(cfg: Config, c: Context, id: string, ticket: string, code: string, s: State): (r: Outcome<string>)
    ensures Advances(s.world, r.state.world)
    ensures Sound(cfg, s.world.log) ==> Sound(cfg, r.state.world.log)
    ensures r.result.Failure? ==> r.result.error.Wrapped? && r.result.error.context in AuthorizeSteps
    ensures r.result.Failure? ==> !Is(r.result.error, MaxRetriesExceeded)
    ensures r.result.Success? ==> r.result.value == id
  {
    var confirmed := ExecuteOutcome(cfg, BodyExcerpt, Confirm("sign_up", ticket, code), c, s);
    if confirmed.result.Failure? then
      Outcome(Failure(Wrapped("submit confirmation code", confirmed.result.error)), confirmed.state)
    else ApiFinishOutcome(cfg, c, id, confirmed.state)
  }

  /** The flow's last two steps: the password sign-up and the level-up. */
  function ApiFinishOutcome(cfg: Config, c: Context, id: string, s: State): (r: Outcome<string>)
    ensures Advances(s.world, r.state.world)
    ensures Sound(cfg, s.world.log) ==> Sound(cfg, r.state.world.log)
    ensures r.result.Failure? ==> r.result.error.Wrapped? && r.result.error.context in AuthorizeSteps
    ensures r.result.Failure? ==> !Is(r.result.error, MaxRetriesExceeded)
    ensures r.result.Success? ==> r.result.value == id
  {
    var password := ExecuteOutcome(cfg, BodyExcerpt, PasswordSignUp(cfg.credential.password), c, s);
    if password.result.Failure? then Outcome(Failure(Wrapped("password sign up", password.result.error)), password.state)
    else
      var levelUp := ExecuteOutcome(cfg, BodyExcerpt, LevelUp, c, password.state);
      if levelUp.result.Failure? then Outcome(Failure(Wrapped("level up", levelUp.result.error)), levelUp.state)
      else Outcome(Success(id), levelUp.state)
  }

  /** apiAuthFlow.authorize on a client. */
  method ApiAuthorize(client: Client, ctx: Context) returns (r: Result<string, Error>)
    modifies client, client.oracle
    ensures Outcome(r, client.Current()) == ApiAuthorizeOutcome(client.Settings(), ctx, old(client.Current()))
  {
    var got := client.Execute(BodyExcerpt, NewSession, ctx);
    if got.Failure? {
      return Failure(Wrapped("get new sessionid", got.error));
    }
    var id := got.value.payload;
    r := ApiSignUp(client, WithSession(ctx, Some(id)), id);
  }

  method ApiSignUp(client: Client, c: Context, id: string) returns (r: Result<string, Error>)
    modifies client, client.oracle
    ensures Outcome(r, client.Current()) == ApiSignUpOutcome(client.Settings(), c, id, old(client.Current()))
  {
    var phone := client.Execute(BodyExcerpt, PhoneSignUp(client.credential.phone), c);
    if phone.Failure? {
      return Failure(Wrapped("phone sign up", phone.error));
    }
    var code := client.oracle.AskCode(client.credential.phone);
    if code.None? {
      return Failure(Wrapped("get confirmation code", Foreign("confirmation provider")));
    }
    r := ApiConfirm(client, c, id, phone.value.operationTicket, code.value);
  }

  method ApiConfirm(client: Client, c: Context, id: string, ticket: string, code: string) returns (r: Result<string, Error>)
    modifies client, client.oracle
    ensures Outcome(r, client.Current()) == ApiConfirmOutcome(client.Settings(), c, id, ticket, code, old(client.Current()))
  {
    var confirmed := client.Execute(BodyExcerpt, Confirm("sign_up", ticket, code), c);
    if confirmed.Failure? {
      return Failure(Wrapped("submit confirmation code", confirmed.error));
    }
    r := ApiFinish(client, c, id);
  }

  method ApiFinish(client: Client, c: Context, id: string) returns (r: Result<string, Error>)
    modifies client, client.oracle
    ensures Outcome(r, client.Current()) == ApiFinishOutcome(client.Settings(), c, id, old(client.Current()))
  {
    var password := client.Execute(BodyExcerpt, PasswordSignUp(client.credential.password), c);
    if password.Failure? {
      return Failure(Wrapped("password sign up", password.error));
    }
    var levelUp := client.Execute(BodyExcerpt, LevelUp, c);
    if levelUp.Failure? {
      return Failure(Wrapped("level up", levelUp.error));
    }
    return Success(id);
  }
}
