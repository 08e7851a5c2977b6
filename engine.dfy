/** The primary-protocol exchange engine (executeCommon in common.go and
    its twin execute in client.go) together with the session handling and
    programmatic login of client.go, which it calls and which call it. */
module Engine {
  import opened Wrappers
  import opened Errors
  import opened Contexts
  import opened Descriptors
  import opened Environment

  datatype Credential = Credential(phone: string, password: string)

  /** When the INSUFFICIENT_PRIVILEGES branch consults retry.do.
      AuthorizeThenRetry is the order the engine is written in: authorize
      first, then ask retry.do. RetryThenAuthorize asks retry.do first and
      authorizes under the context it returns, the order executeInvest uses
      on its "404" path; it is the corrected order (README, "## Findings"),
      reachable through the Client constructor. */
  datatype ReauthOrder = AuthorizeThenRetry | RetryThenAuthorize

  /** What a client is built with and never changes afterwards. */
  datatype Config = Config(credential: Credential, limiters: map<string, Limiter>, reauth: ReauthOrder)

  /** The client's session cache and its surroundings. */
  datatype State = State(session: Option<string>, world: World)

  datatype Outcome<T> = Outcome(result: Result<T, Error>, state: State)

  /** The fixed client-origin marker of every primary-protocol request. */
  const Origin := "web,ib5,platform"

  /** The URL query of a primary-protocol request: `sessionid` only for a
      non-empty session ID. */
  function QueryFor(sessionId: string): (q: Query)
    ensures q.origin == Origin
    ensures q.sessionId.Some? <==> sessionId != ""
    ensures q.sessionId.Some? ==> q.sessionId.value == sessionId
  {
    Query(Origin, if sessionId == "" then None else Some(sessionId))
  }

  /** The invariant of the log. Every request is sent under the lock when
      its descriptor is authenticated (the one clause that is about the
      control flow: it holds because the lock is taken before the session
      lookup and kept for everything after), and every backoff wait is
      within its budget. The origin, the non-empty session ID and the
      configured limiter hold by the way each request is built, and are
      listed so that the log states them. */
  predicate EventSound(cfg: Config, e: Event) {
    match e
    case Posted(x, q, locked, limiter) =>
      q.origin == Origin && q.sessionId != Some("") && (AuthOf(x) != NoAuth ==> locked) &&
      limiter == RateLimiter(cfg.limiters, Path(x))
    case Fetched(_, _, name, version, locked) => name == "invest" && version == "1.328.0" && locked
    case Waited(p, attempt) => p.maxRetries < 0 || attempt < p.maxRetries
    case CodeAsked(_) => true
    case Probed => true
  }

  predicate Sound(cfg: Config, log: seq<Event>) {
    forall i :: 0 <= i < |log| ==> EventSound(cfg, log[i])
  }

  lemma SoundAppend(cfg: Config, log: seq<Event>, e: Event)
    requires Sound(cfg, log) && EventSound(cfg, e)
    ensures Sound(cfg, log + [e])
  {
    assert forall i :: 0 <= i < |log| ==> (log + [e])[i] == log[i];
  }

  /** A retry wait logged by retry.do is always within its policy's budget. */
  lemma RetryStepSound(cfg: Config, p: Policy, ctx: Context, w: World)
    requires Sound(cfg, w.log)
    ensures Sound(cfg, RetryStep(p, ctx, w).world.log)
  {
    if !(0 <= p.maxRetries <= ctx.retries) {
      SoundAppend(cfg, w.log, Waited(p, ctx.retries));
    }
  }

  /** How executeCommon (BodyExcerpt: the body, shortened by ellipsis, or the
      status line when the body cannot be read) and execute (StatusLine:
      always the status line) describe a non-200 reply. */
  datatype NonOkText = BodyExcerpt | StatusLine

  function NonOkError(t: NonOkText, status: string, text: Option<string>): Error {
    if t == BodyExcerpt && text.Some? then Text(Ellipsis(text.value)) else Status(status)
  }

  /** The decision the engine takes on one reply. */
  datatype Verdict =
    | Deliver(envelope: Envelope)         // the result code is the expected one
    | Fail(error: Error)                  // terminal
    | Retry(policy: Policy, cause: Error) // retry.do; on exhaustion the cause surfaces
    | Reauthorize(cause: Error)           // authorize, then one immediate retry

  /** A decoded 200 reply whose result code is not the expected one. */
  predicate Mismatched(x: Exchange, reply: Reply) {
    reply.Answer? && reply.code == 200 && reply.body.envelope.Some? &&
    reply.body.envelope.value.resultCode != ExpectedCode(x)
  }

  /** The result codes the engine treats specially. */
  const SpecialCodes := {"NO_DATA_FOUND", "REQUEST_RATE_LIMIT_EXCEEDED", "INSUFFICIENT_PRIVILEGES"}

  /** The resultCodeError built from a mismatched reply. */
  function MismatchError(x: Exchange, reply: Reply): Error
    requires Mismatched(x, reply)
  {
    var e := reply.body.envelope.value;
    ResultCode(ExpectedCode(x), e.resultCode, e.errorMessage)
  }

  /** The classifier of executeCommon: return the payload, fail, re-authorize
      or retry, and with which policy. */
  function Classify(t: NonOkText, x: Exchange, reply: Reply): (v: Verdict)
    ensures v.Deliver? <==>
      reply.Answer? && reply.code == 200 && reply.body.envelope.Some? &&
      reply.body.envelope.value.resultCode == ExpectedCode(x)
    ensures v.Deliver? ==> v.envelope == reply.body.envelope.value
    ensures reply.Answer? && reply.code != 200 <==> v.Retry? && v.policy == TransportPolicy
    ensures reply.Answer? && reply.code != 200 ==> v.cause == NonOkError(t, reply.status, reply.body.text)
    ensures Mismatched(x, reply) && reply.body.envelope.value.resultCode == "NO_DATA_FOUND" <==> v == Fail(NoDataFound)
    ensures Mismatched(x, reply) && reply.body.envelope.value.resultCode == "REQUEST_RATE_LIMIT_EXCEEDED" <==>
      v.Retry? && v.policy == RateLimitPolicy
    ensures Mismatched(x, reply) && reply.body.envelope.value.resultCode == "INSUFFICIENT_PRIVILEGES" <==> v.Reauthorize?
    ensures ((v.Retry? && v.policy == RateLimitPolicy) || v.Reauthorize?) ==>
              Mismatched(x, reply) && v.cause == MismatchError(x, reply)
    ensures (Mismatched(x, reply) && reply.body.envelope.value.resultCode !in SpecialCodes) ==>
              v == Fail(MismatchError(x, reply))
    ensures v.Fail? ==> !Is(v.error, MaxRetriesExceeded)
    ensures v.Retry? || v.Reauthorize? ==> !Is(v.cause, MaxRetriesExceeded)
  {
    match reply
    case Unreachable(reason) => Fail(Wrapped("execute request", Foreign(reason)))
    case Bodiless(status) => Fail(Status(status))
    case Answer(code, status, body) =>
      if code != 200 then Retry(TransportPolicy, NonOkError(t, status, body.text))
      else if body.envelope.None? then Fail(Wrapped("decode response body", Foreign("json")))
      else if body.envelope.value.resultCode == ExpectedCode(x) then Deliver(body.envelope.value)
      else
        var cause := MismatchError(x, reply);
        match body.envelope.value.resultCode
        case "NO_DATA_FOUND" => Fail(NoDataFound)
        case "REQUEST_RATE_LIMIT_EXCEEDED" => Retry(RateLimitPolicy, cause)
        case "INSUFFICIENT_PRIVILEGES" => Reauthorize(cause)
        case _ => Fail(cause)
  }

  /** getSessionID: unauthorized on an empty cache, else the cached ID itself. */
  function SessionIDOf(cached: Option<string>): (r: Result<string, Error>)
    ensures cached.None? <==> r == Failure(Unauthorized)
    ensures cached.Some? ==> r == Success(cached.value)
    ensures r.Success? ==> cached == Some(r.value)
  {
    if cached.None? then Failure(Unauthorized) else Success(cached.value)
  }

  /** The context phrases authorize wraps a failing step's error in, in step order. */
  const AuthorizeSteps := ["get new sessionid", "phone sign up", "get confirmation code",
                           "submit confirmation code", "password sign up", "level up"]

  /** The measure that orders this group of mutually recursive calls: a
      forcing call may authorize before it consumes a reply, the others
      consume one first. */
  function Rank(x: Exchange): nat {
    if AuthOf(x) == Force then 7 else 1
  }

  /** executeCommon / execute, up to sending: lock and session lookup for
      authenticated descriptors, the rate-limiter wait, then the request. */
  function ExecuteOutcome(cfg: Config, t: NonOkText, x: Exchange, ctx: Context, s: State): (r: Outcome<Envelope>)
    ensures Advances(s.world, r.state.world)
    ensures Sound(cfg, s.world.log) ==> Sound(cfg, r.state.world.log)
    ensures r.result.Failure? ==> !Is(r.result.error, MaxRetriesExceeded)
    ensures s.session.Some? ==> r.state.session.Some?
    decreases |s.world.replies|, Rank(x)
  {
    if AuthOf(x) != NoAuth && Done(ctx, s.world) then Outcome(Failure(Cancelled), s)
    else
      var c := if AuthOf(x) != NoAuth then ctx.(locked := true) else ctx;
      var lookup :=
        if AuthOf(x) == Force then EnsureSessionOutcome(cfg, c, s)
        else if AuthOf(x) == Check then Outcome(SessionIDOf(s.session), s)
        else Outcome(Success(""), s);
      if lookup.result.Failure? then Outcome(Failure(Wrapped("get sessionid", lookup.result.error)), lookup.state)
      else if Done(c, lookup.state.world) then Outcome(Failure(Cancelled), lookup.state)
      else SendOutcome(cfg, t, x, c, lookup.result.value, lookup.state)
  }

  /** The request itself, the classification of its reply and what follows;
      the request is the first thing logged. */
  function SendOutcome(cfg: Config, t: NonOkText, x: Exchange, c: Context, sessionId: string, s: State): (r: Outcome<Envelope>)
    requires AuthOf(x) != NoAuth ==> c.locked
    ensures s.world.log + [Posted(x, QueryFor(sessionId), c.locked, RateLimiter(cfg.limiters, Path(x)))] <= r.state.world.log
    ensures Advances(s.world, r.state.world)
    ensures Sound(cfg, s.world.log) ==> Sound(cfg, r.state.world.log)
    ensures r.result.Failure? ==> !Is(r.result.error, MaxRetriesExceeded)
    ensures s.session.Some? ==> r.state.session.Some?
    decreases |s.world.replies|, 0
  {
    var event := Posted(x, QueryFor(sessionId), c.locked, RateLimiter(cfg.limiters, Path(x)));
    var reply := NextReply(s.world);
    var s1 := s.(world := AfterSend(event, s.world));
    assert Sound(cfg, s.world.log) ==> Sound(cfg, s1.world.log) by {
      if Sound(cfg, s.world.log) { SoundAppend(cfg, s.world.log, event); }
    }
    if reply.None? then Outcome(Failure(Wrapped("execute request", Foreign("no reply"))), s1)
    else
      match Classify(t, x, reply.value)
      case Deliver(e) => Outcome(Success(e), s1)
      case Fail(e) => Outcome(Failure(e), s1)
      case Retry(p, cause) => RetryOutcome(cfg, t, x, c, p, cause, s1)
      case Reauthorize(cause) => ReauthorizeOutcome(cfg, t, x, c, cause, s1)
  }

  /** INSUFFICIENT_PRIVILEGES: authorize and retry.do, in the configured
      order. As written, authorize runs first and then retry.do (budget one)
      repeats the call; in the corrected order the budget is consulted first,
      so a second refusal in the same chain is returned without authorizing. */
  function ReauthorizeOutcome(cfg: Config, t: NonOkText, x: Exchange, c: Context, cause: Error, s: State): (r: Outcome<Envelope>)
    requires !Is(cause, MaxRetriesExceeded)
    ensures Advances(s.world, r.state.world)
    ensures Sound(cfg, s.world.log) ==> Sound(cfg, r.state.world.log)
    ensures r.result.Failure? ==> !Is(r.result.error, MaxRetriesExceeded)
    ensures s.session.Some? ==> r.state.session.Some?
    decreases |s.world.replies|, 10
  {
    if cfg.reauth == AuthorizeThenRetry then AuthorizeFirstOutcome(cfg, t, x, c, cause, s)
    else RetryFirstOutcome(cfg, t, x, c, cause, s)
  }

  /** The order as written: authorize, then retry.do repeats the call. */
  function AuthorizeFirstOutcome(cfg: Config, t: NonOkText, x: Exchange, c: Context, cause: Error, s: State): (r: Outcome<Envelope>)
    requires !Is(cause, MaxRetriesExceeded)
    ensures Advances(s.world, r.state.world)
    ensures Sound(cfg, s.world.log) ==> Sound(cfg, r.state.world.log)
    ensures r.result.Failure? ==> !Is(r.result.error, MaxRetriesExceeded)
    ensures s.session.Some? ==> r.state.session.Some?
    decreases |s.world.replies|, 9
  {
    var a := AuthorizeOutcome(cfg, c, s);
    if a.result.Failure? then Outcome(Failure(Wrapped("authorize", a.result.error)), a.state)
    else RetryOutcome(cfg, t, x, c, ReauthPolicy, cause, a.state)
  }

  /** The corrected order: retry.do first, then authorize under the context
      it returned, then the call again. */
  function RetryFirstOutcome(cfg: Config, t: NonOkText, x: Exchange, c: Context, cause: Error, s: State): (r: Outcome<Envelope>)
    requires !Is(cause, MaxRetriesExceeded)
    ensures Advances(s.world, r.state.world)
    ensures Sound(cfg, s.world.log) ==> Sound(cfg, r.state.world.log)
    ensures r.result.Failure? ==> !Is(r.result.error, MaxRetriesExceeded)
    ensures s.session.Some? ==> r.state.session.Some?
    decreases |s.world.replies|, 9
  {
    var next := RetryStep(ReauthPolicy, c, s.world);
    var s1 := s.(world := next.world);
    assert Sound(cfg, s.world.log) ==> Sound(cfg, s1.world.log) by {
      if Sound(cfg, s.world.log) { RetryStepSound(cfg, ReauthPolicy, c, s.world); }
    }
    if next.result.Failure? then
      Outcome(Failure(if Is(next.result.error, MaxRetriesExceeded) then cause else next.result.error), s1)
    else RenewedOutcome(cfg, t, x, next.result.value, s1)
  }

  /** authorize, then the whole call again under the same context. */
  function RenewedOutcome(cfg: Config, t: NonOkText, x: Exchange, c: Context, s: State): (r: Outcome<Envelope>)
    ensures Advances(s.world, r.state.world)
    ensures Sound(cfg, s.world.log) ==> Sound(cfg, r.state.world.log)
    ensures r.result.Failure? ==> !Is(r.result.error, MaxRetriesExceeded)
    ensures s.session.Some? ==> r.state.session.Some?
    decreases |s.world.replies|, 8
  {
    var a := AuthorizeOutcome(cfg, c, s);
    if a.result.Failure? then Outcome(Failure(Wrapped("authorize", a.result.error)), a.state)
    else ExecuteOutcome(cfg, t, x, c, a.state)
  }

  /** retry.do, then: exhaustion surfaces the reply's own error, any other
      retry error is returned as it is, success repeats the whole call. */
  function RetryOutcome(cfg: Config, t: NonOkText, x: Exchange, c: Context, p: Policy, cause: Error, s: State): (r: Outcome<Envelope>)
    requires !Is(cause, MaxRetriesExceeded)
    ensures Advances(s.world, r.state.world)
    ensures Sound(cfg, s.world.log) ==> Sound(cfg, r.state.world.log)
    ensures r.result.Failure? ==> !Is(r.result.error, MaxRetriesExceeded)
    ensures s.session.Some? ==> r.state.session.Some?
    decreases |s.world.replies|, 8
  {
    var next := RetryStep(p, c, s.world);
    var s1 := s.(world := next.world);
    assert Sound(cfg, s.world.log) ==> Sound(cfg, s1.world.log) by {
      if Sound(cfg, s.world.log) { RetryStepSound(cfg, p, c, s.world); }
    }
    if next.result.Failure? then
      Outcome(Failure(if Is(next.result.error, MaxRetriesExceeded) then cause else next.result.error), s1)
    else ExecuteOutcome(cfg, t, x, next.result.value, s1)
  }

  /** client.authorize: new session (stored at once), phone sign-up,
      confirmation code, confirm with the sign-up's ticket, password sign-up,
      level-up; the first failure ends it, wrapped with the step's name. */
  function AuthorizeOutcome(cfg: Config, ctx: Context, s: State): (r: Outcome<string>)
    ensures Advances(s.world, r.state.world)
    ensures Sound(cfg, s.world.log) ==> Sound(cfg, r.state.world.log)
    ensures r.result.Failure? ==> !Is(r.result.error, MaxRetriesExceeded)
    ensures r.result.Failure? ==> r.result.error.Wrapped? && r.result.error.context in AuthorizeSteps
    ensures s.session.Some? ==> r.state.session.Some?
    ensures r.result.Success? ==> r.state.session.Some?
    decreases |s.world.replies|, 5
  {
    var got := ExecuteOutcome(cfg, StatusLine, NewSession, ctx, s);
    if got.result.Failure? then Outcome(Failure(Wrapped("get new sessionid", got.result.error)), got.state)
    else
      var id := got.result.value.payload;
      SignUpOutcome(cfg, ctx, id, got.state.(session := Some(id)))
  }

  /** authorize from the phone sign-up on, with the new session `id` cached:
      the sign-up, then the provider's confirmation code. */
  function SignUpOutcome(cfg: Config, ctx: Context, id: string, s: State): (r: Outcome<string>)
    ensures Advances(s.world, r.state.world)
    ensures Sound(cfg, s.world.log) ==> Sound(cfg, r.state.world.log)
    ensures r.result.Failure? ==> !Is(r.result.error, MaxRetriesExceeded)
    ensures r.result.Failure? ==> r.result.error.Wrapped? && r.result.error.context in AuthorizeSteps
    ensures s.session.Some? ==> r.state.session.Some?
    ensures r.result.Success? ==> r.result.value == id
    decreases |s.world.replies|, 4
  {
    var phone := ExecuteOutcome(cfg, StatusLine, PhoneSignUp(cfg.credential.phone), ctx, s);
    if phone.result.Failure? then Outcome(Failure(Wrapped("phone sign up", phone.result.error)), phone.state)
    else
      var code := NextCode(phone.state.world);
      var s2 := phone.state.(world := AfterCode(cfg.credential.phone, phone.state.world));
      assert Sound(cfg, phone.state.world.log) ==> Sound(cfg, s2.world.log) by {
        if Sound(cfg, phone.state.world.log) {
          SoundAppend(cfg, phone.state.world.log, CodeAsked(cfg.credential.phone));
        }
      }
      if code.None? then Outcome(Failure(Wrapped("get confirmation code", Foreign("confirmation provider"))), s2)
      else ConfirmOutcome(cfg, ctx, id, phone.result.value.operationTicket, code.value, s2)
  }

  /** authorize from the submission of the confirmation code on: the code
      confirms the sign-up operation named by the sign-up's ticket. */
  function ConfirmOutcome(cfg: Config, ctx: Context, id: string, ticket: string, code: string, s: State): (r: Outcome<string>)
    ensures Advances(s.world, r.state.world)
    ensures Sound(cfg, s.world.log) ==> Sound(cfg, r.state.world.log)
    ensures r.result.Failure? ==> !Is(r.result.error, MaxRetriesExceeded)
    ensures r.result.Failure? ==> r.result.error.Wrapped? && r.result.error.context in AuthorizeSteps
    ensures s.session.Some? ==> r.state.session.Some?
    ensures r.result.Success? ==> r.result.value == id
    decreases |s.world.replies|, 3
  {
    var confirmed := ExecuteOutcome(cfg, StatusLine, Confirm("sign_up", ticket, code), ctx, s);
    if confirmed.result.Failure? then
      Outcome(Failure(Wrapped("submit confirmation code", confirmed.result.error)), confirmed.state)
    else FinishOutcome(cfg, ctx, id, confirmed.state)
  }

  /** authorize's last two steps: the password sign-up and the level-up. */
  function FinishOutcome(cfg: Config, ctx: Context, id: string, s: State): (r: Outcome<string>)
    ensures Advances(s.world, r.state.world)
    ensures Sound(cfg, s.world.log) ==> Sound(cfg, r.state.world.log)
    ensures r.result.Failure? ==> !Is(r.result.error, MaxRetriesExceeded)
    ensures r.result.Failure? ==> r.result.error.Wrapped? && r.result.error.context in AuthorizeSteps
    ensures s.session.Some? ==> r.state.session.Some?
    ensures r.result.Success? ==> r.result.value == id
    decreases |s.world.replies|, 2
  {
    var password := ExecuteOutcome(cfg, StatusLine, PasswordSignUp(cfg.credential.password), ctx, s);
    if password.result.Failure? then Outcome(Failure(Wrapped("password sign up", password.result.error)), password.state)
    else
      var levelUp := ExecuteOutcome(cfg, StatusLine, LevelUp, ctx, password.state);
      if levelUp.result.Failure? then Outcome(Failure(Wrapped("level up", levelUp.result.error)), levelUp.state)
      else Outcome(Success(id), levelUp.state)
  }

  /** ensureSessionID: a cached session is returned as it is and nothing
      happens; otherwise authorize, and on failure the cache is reset. */
  function EnsureSessionOutcome(cfg: Config, ctx: Context, s: State): (r: Outcome<string>)
    ensures s.session.Some? ==> r == Outcome(Success(s.session.value), s)
    ensures r.result.Failure? ==> s.session.None? && r.state.session.None?
    ensures Advances(s.world, r.state.world)
    ensures Sound(cfg, s.world.log) ==> Sound(cfg, r.state.world.log)
    ensures r.result.Failure? ==> !Is(r.result.error, MaxRetriesExceeded)
    decreases |s.world.replies|, 6
  {
    if s.session.Some? then Outcome(Success(s.session.value), s)
    else
      var a := AuthorizeOutcome(cfg, ctx, s);
      if a.result.Failure? then Outcome(a.result, a.state.(session := None)) else a
  }

  /** One tick of the keep-alive loop: the probe runs under the lock, and
      the session is cleared only when the probe succeeds and reports an
      access level other than "CLIENT". */
  function PingOutcome(cfg: Config, ctx: Context, s: State): (r: State)
    ensures Done(ctx, s.world) ==> r == s
  {
    var c := ctx.(locked := true);
    if Done(c, s.world) then s
    else
      var out := ExecuteOutcome(cfg, StatusLine, Ping, c, s);
      if out.result.Success? && out.result.value.payload != "CLIENT" then out.state.(session := None)
      else out.state
  }

  /** The client: its configuration, its session cache and its surroundings. */
  class Client {
    const credential: Credential
    const rateLimiters: map<string, Limiter>
    const reauth: ReauthOrder
    const oracle: Oracle
    var session: Option<string>

    function Settings(): Config {
      Config(credential, rateLimiters, reauth)
    }

    function Current(): State
      reads this, oracle
    {
      State(session, oracle.View())
    }

    constructor (cfg: Config, stored: Option<string>, oracle: Oracle)
      ensures Settings() == cfg && this.oracle == oracle && session == stored
    {
      this.credential := cfg.credential;
      this.rateLimiters := cfg.limiters;
      this.reauth := cfg.reauth;
      this.oracle := oracle;
      this.session := stored;
    }

    /** ClientBuilder.Build: a builder that fails validation (`invalid`, the
        verdict of the validator on its required fields) builds nothing and
        returns that error; otherwise the client gets the credential, the
        shopping-receipt limiters and the re-authorization order as written,
        and its cache starts from what the session storage holds. */
    static method Build(credential: Credential, invalid: Option<Error>, stored: Option<string>, oracle: Oracle)
      returns (r: Result<Client, Error>)
      ensures r.Failure? <==> invalid.Some?
      ensures r.Failure? ==> r.error == invalid.value
      ensures r.Success? ==> fresh(r.value) && r.value.oracle == oracle && r.value.session == stored
      ensures r.Success? ==> r.value.Settings() == Config(credential, BuiltLimiters(), AuthorizeThenRetry)
    {
      if invalid.Some? {
        return Failure(invalid.value);
      }
      var client := new Client(Config(credential, BuiltLimiters(), AuthorizeThenRetry), stored, oracle);
      return Success(client);
    }

    /** resetSessionID. */
    method ResetSessionID()
      modifies this
      ensures session == None
    {
      session := None;
    }

    method EnsureSessionID(ctx: Context) returns (r: Result<string, Error>)
      modifies this, oracle
      decreases |oracle.replies|, 6
      ensures Outcome(r, Current()) == EnsureSessionOutcome(Settings(), ctx, old(Current()))
    {
      if session.Some? {
        return Success(session.value);
      }
      r := Authorize(ctx);
      if r.Failure? {
        ResetSessionID();
      }
    }

    method Authorize(ctx: Context) returns (r: Result<string, Error>)
      modifies this, oracle
      decreases |oracle.replies|, 5
      ensures Outcome(r, Current()) == AuthorizeOutcome(Settings(), ctx, old(Current()))
    {
      var got := Execute(StatusLine, NewSession, ctx);
      if got.Failure? {
        return Failure(Wrapped("get new sessionid", got.error));
      }
      var id := got.value.payload;
      session := Some(id);
      r := SignUp(ctx, id);
    }

    method SignUp(ctx: Context, id: string) returns (r: Result<string, Error>)
      modifies this, oracle
      decreases |oracle.replies|, 4
      ensures Outcome(r, Current()) == SignUpOutcome(Settings(), ctx, id, old(Current()))
    {
      var phone := Execute(StatusLine, PhoneSignUp(credential.phone), ctx);
      if phone.Failure? {
        return Failure(Wrapped("phone sign up", phone.error));
      }
      var code := oracle.AskCode(credential.phone);
      if code.None? {
        return Failure(Wrapped("get confirmation code", Foreign("confirmation provider")));
      }
      r := ConfirmCode(ctx, id, phone.value.operationTicket, code.value);
    }

    method ConfirmCode(ctx: Context, id: string, ticket: string, code: string) returns (r: Result<string, Error>)
      modifies this, oracle
      decreases |oracle.replies|, 3
      ensures Outcome(r, Current()) == ConfirmOutcome(Settings(), ctx, id, ticket, code, old(Current()))
    {
      var confirmed := Execute(StatusLine, Confirm("sign_up", ticket, code), ctx);
      if confirmed.Failure? {
        return Failure(Wrapped("submit confirmation code", confirmed.error));
      }
      r := Finish(ctx, id);
    }

    method Finish(ctx: Context, id: string) returns (r: Result<string, Error>)
      modifies this, oracle
      decreases |oracle.replies|, 2
      ensures Outcome(r, Current()) == FinishOutcome(Settings(), ctx, id, old(Current()))
    {
      var password := Execute(StatusLine, PasswordSignUp(credential.password), ctx);
      if password.Failure? {
        return Failure(Wrapped("password sign up", password.error));
      }
      var levelUp := Execute(StatusLine, LevelUp, ctx);
      if levelUp.Failure? {
        return Failure(Wrapped("level up", levelUp.error));
      }
      return Success(id);
    }

    method Execute(t: NonOkText, x: Exchange, ctx: Context) returns (r: Result<Envelope, Error>)
      modifies this, oracle
      decreases |oracle.replies|, Rank(x)
      ensures Outcome(r, Current()) == ExecuteOutcome(Settings(), t, x, ctx, old(Current()))
    {
      var c := ctx;
      var sessionId := "";
      if AuthOf(x) != NoAuth {
        if Done(c, oracle.View()) {
          return Failure(Cancelled);
        }
        c := c.(locked := true);
        var id;
        if AuthOf(x) == Force {
          id := EnsureSessionID(c);
        } else {
          id := SessionIDOf(session);
        }
        if id.Failure? {
          return Failure(Wrapped("get sessionid", id.error));
        }
        sessionId := id.value;
      }
      if Done(c, oracle.View()) {
        return Failure(Cancelled);
      }
      r := Send(t, x, c, sessionId);
    }

    method Send(t: NonOkText, x: Exchange, c: Context, sessionId: string) returns (r: Result<Envelope, Error>)
      requires AuthOf(x) != NoAuth ==> c.locked
      modifies this, oracle
      decreases |oracle.replies|, 0
      ensures Outcome(r, Current()) == SendOutcome(Settings(), t, x, c, sessionId, old(Current()))
    {
      var reply := oracle.Send(Posted(x, QueryFor(sessionId), c.locked, RateLimiter(rateLimiters, Path(x))));
      if reply.None? {
        return Failure(Wrapped("execute request", Foreign("no reply")));
      }
      var verdict := Classify(t, x, reply.value);
      match verdict
      case Deliver(e) => r := Success(e);
      case Fail(e) => r := Failure(e);
      case Retry(p, cause) => r := Retry(t, x, c, p, cause);
      case Reauthorize(cause) => r := Reauthorize(t, x, c, cause);
    }

    method Reauthorize(t: NonOkText, x: Exchange, c: Context, cause: Error) returns (r: Result<Envelope, Error>)
      requires !Is(cause, MaxRetriesExceeded)
      modifies this, oracle
      decreases |oracle.replies|, 10
      ensures Outcome(r, Current()) == ReauthorizeOutcome(Settings(), t, x, c, cause, old(Current()))
    {
      if reauth == AuthorizeThenRetry {
        r := AuthorizeFirst(t, x, c, cause);
      } else {
        r := RetryFirst(t, x, c, cause);
      }
    }

    method AuthorizeFirst(t: NonOkText, x: Exchange, c: Context, cause: Error) returns (r: Result<Envelope, Error>)
      requires !Is(cause, MaxRetriesExceeded)
      modifies this, oracle
      decreases |oracle.replies|, 9
      ensures Outcome(r, Current()) == AuthorizeFirstOutcome(Settings(), t, x, c, cause, old(Current()))
    {
      ghost var s := Current();
      var a := Authorize(c);
      if a.Failure? {
        r := Failure(Wrapped("authorize", a.error));
        assert Outcome(r, Current()) == AuthorizeFirstOutcome(Settings(), t, x, c, cause, s);
      } else {
        ghost var s1 := Current();
        r := Retry(t, x, c, ReauthPolicy, cause);
        assert Outcome(r, Current()) == RetryOutcome(Settings(), t, x, c, ReauthPolicy, cause, s1);
      }
    }

    method RetryFirst(t: NonOkText, x: Exchange, c: Context, cause: Error) returns (r: Result<Envelope, Error>)
      requires !Is(cause, MaxRetriesExceeded)
      modifies this, oracle
      decreases |oracle.replies|, 9
      ensures Outcome(r, Current()) == RetryFirstOutcome(Settings(), t, x, c, cause, old(Current()))
    {
      ghost var s := Current();
      var next := oracle.RetryDo(ReauthPolicy, c);
      assert Attempt(next, Current().world) == RetryStep(ReauthPolicy, c, s.world) && Current().session == s.session;
      if next.Failure? {
        r := Failure(if Is(next.error, MaxRetriesExceeded) then cause else next.error);
        assert Outcome(r, Current()) == RetryFirstOutcome(Settings(), t, x, c, cause, s);
      } else {
        ghost var s1 := Current();
        r := Renewed(t, x, next.value);
        assert Outcome(r, Current()) == RenewedOutcome(Settings(), t, x, next.value, s1);
      }
    }

    method Renewed(t: NonOkText, x: Exchange, c: Context) returns (r: Result<Envelope, Error>)
      modifies this, oracle
      decreases |oracle.replies|, 8
      ensures Outcome(r, Current()) == RenewedOutcome(Settings(), t, x, c, old(Current()))
    {
      ghost var s := Current();
      var a := Authorize(c);
      if a.Failure? {
        r := Failure(Wrapped("authorize", a.error));
        assert Outcome(r, Current()) == RenewedOutcome(Settings(), t, x, c, s);
      } else {
        ghost var s1 := Current();
        r := Execute(t, x, c);
        assert Outcome(r, Current()) == ExecuteOutcome(Settings(), t, x, c, s1);
      }
    }

    method Retry(t: NonOkText, x: Exchange, c: Context, p: Policy, cause: Error) returns (r: Result<Envelope, Error>)
      requires !Is(cause, MaxRetriesExceeded)
      modifies this, oracle
      decreases |oracle.replies|, 8
      ensures Outcome(r, Current()) == RetryOutcome(Settings(), t, x, c, p, cause, old(Current()))
    {
      ghost var s := Current();
      var next := oracle.RetryDo(p, c);
      assert Attempt(next, Current().world) == RetryStep(p, c, s.world) && Current().session == s.session;
      if next.Failure? {
        r := Failure(if Is(next.error, MaxRetriesExceeded) then cause else next.error);
        assert Outcome(r, Current()) == RetryOutcome(Settings(), t, x, c, p, cause, s);
      } else {
        ghost var s1 := Current();
        r := Execute(t, x, next.value);
        assert Outcome(r, Current()) == ExecuteOutcome(Settings(), t, x, next.value, s1);
      }
    }

    /** One pass of the ping loop body. */
    method PingTick(ctx: Context)
      modifies this, oracle
      ensures Current() == PingOutcome(Settings(), ctx, old(Current()))
    {
      var c := ctx.(locked := true);
      if !Done(c, oracle.View()) {
        var out := Execute(StatusLine, Ping, c);
        if out.Success? && out.value.payload != "CLIENT" {
          ResetSessionID();
        }
      }
    }
  }
}
