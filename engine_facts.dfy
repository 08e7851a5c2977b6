/** What the exchange engine and the session handling promise, stated over
    the specification functions of module Engine. */
module EngineFacts {
  import opened Wrappers
  import opened Errors
  import opened Contexts
  import opened Descriptors
  import opened Environment
  import opened Engine

  /** The context an exchange runs under once its auth level is known. */
  function Guarded(x: Exchange, ctx: Context): Context {
    if AuthOf(x) != NoAuth then ctx.(locked := true) else ctx
  }

  /** The request the engine logs for an exchange. */
  function Request(cfg: Config, x: Exchange, c: Context, sessionId: string): Event {
    Posted(x, QueryFor(sessionId), c.locked, RateLimiter(cfg.limiters, Path(x)))
  }

  /** A 200 reply decoding to an envelope with the expected result code. */
  predicate Accepts(x: Exchange, reply: Reply, e: Envelope) {
    reply.Answer? && reply.code == 200 && reply.body.envelope == Some(e) && e.resultCode == ExpectedCode(x)
  }

  /** A 200 reply decoding to an envelope with the given unexpected result code. */
  predicate Rejects(x: Exchange, reply: Reply, code: string) {
    Mismatched(x, reply) && reply.body.envelope.value.resultCode == code
  }

  /** The state after one request was sent and its reply consumed. */
  function Sent(cfg: Config, x: Exchange, c: Context, sessionId: string, s: State): State {
    s.(world := AfterSend(Request(cfg, x, c, sessionId), s.world))
  }

  /** Auth level none skips the lock and the session lookup and sends no
      session ID; check and force with a cached session send that session
      under the lock. Nothing happens before the request. */
  lemma ExecuteSendsAtOnce(cfg: Config, t: NonOkText, x: Exchange, ctx: Context, s: State)
    requires !Done(ctx, s.world)
    requires AuthOf(x) == NoAuth || s.session.Some?
    ensures ExecuteOutcome(cfg, t, x, ctx, s) ==
      SendOutcome(cfg, t, x, Guarded(x, ctx), if AuthOf(x) == NoAuth then "" else s.session.value, s)
  {
  }

  /** Check on an empty cache fails before any request. */
  lemma ExecuteCheckUnauthorized(cfg: Config, t: NonOkText, x: Exchange, ctx: Context, s: State)
    requires !Done(ctx, s.world) && AuthOf(x) == Check && s.session.None?
    ensures ExecuteOutcome(cfg, t, x, ctx, s) == Outcome(Failure(Wrapped("get sessionid", Unauthorized)), s)
  {
  }

  /** Force on an empty cache authorizes first, under the lock; a failed
      authorization is reported as a session lookup failure and leaves the
      cache empty. After a successful one the context is checked again: a
      cancellation that arrived during authorize ends the call with the new
      session cached and nothing more sent; otherwise the new session is sent. */
  lemma ExecuteForceAuthorizes(cfg: Config, t: NonOkText, x: Exchange, ctx: Context, s: State)
    requires !Done(ctx, s.world) && AuthOf(x) == Force && s.session.None?
    ensures var c := ctx.(locked := true);
      var a := AuthorizeOutcome(cfg, c, s);
      ExecuteOutcome(cfg, t, x, ctx, s) ==
        if a.result.Failure? then
          Outcome(Failure(Wrapped("get sessionid", a.result.error)), a.state.(session := None))
        else if Done(c, a.state.world) then Outcome(Failure(Cancelled), a.state)
        else SendOutcome(cfg, t, x, c, a.result.value, a.state)
  {
  }

  /** A context already done when the call starts ends it before any request
      is sent, whatever the auth level and whatever the cache holds. */
  lemma ExecuteCancelled(cfg: Config, t: NonOkText, x: Exchange, ctx: Context, s: State)
    requires Done(ctx, s.world)
    ensures ExecuteOutcome(cfg, t, x, ctx, s) == Outcome(Failure(Cancelled), s)
  {
  }

  /** The expected result code returns the envelope: one request, no wait,
      no authorization, the cache untouched. */
  lemma ExecuteDelivers(cfg: Config, t: NonOkText, x: Exchange, ctx: Context, s: State, e: Envelope)
    requires !Done(ctx, s.world) && (AuthOf(x) == NoAuth || s.session.Some?)
    requires s.world.replies != [] && Accepts(x, s.world.replies[0], e)
    ensures var sid := if AuthOf(x) == NoAuth then "" else s.session.value;
      ExecuteOutcome(cfg, t, x, ctx, s) == Outcome(Success(e), Sent(cfg, x, Guarded(x, ctx), sid, s))
  {
    ExecuteSendsAtOnce(cfg, t, x, ctx, s);
  }

  /** NO_DATA_FOUND is returned as ErrNoDataFound and never retried. */
  lemma SendNoDataFound(cfg: Config, t: NonOkText, x: Exchange, c: Context, sessionId: string, s: State)
    requires AuthOf(x) != NoAuth ==> c.locked
    requires s.world.replies != [] && Rejects(x, s.world.replies[0], "NO_DATA_FOUND")
    ensures SendOutcome(cfg, t, x, c, sessionId, s) == Outcome(Failure(NoDataFound), Sent(cfg, x, c, sessionId, s))
  {
  }

  /** Any other unexpected result code fails at once with resultCodeError. */
  lemma SendRejects(cfg: Config, t: NonOkText, x: Exchange, c: Context, sessionId: string, s: State)
    requires AuthOf(x) != NoAuth ==> c.locked
    requires s.world.replies != [] && Mismatched(x, s.world.replies[0])
    requires s.world.replies[0].body.envelope.value.resultCode !in SpecialCodes
    ensures SendOutcome(cfg, t, x, c, sessionId, s) ==
      Outcome(Failure(MismatchError(x, s.world.replies[0])), Sent(cfg, x, c, sessionId, s))
  {
  }

  /** REQUEST_RATE_LIMIT_EXCEEDED goes to retry.do with a budget of five. */
  lemma SendRateLimited(cfg: Config, t: NonOkText, x: Exchange, c: Context, sessionId: string, s: State)
    requires AuthOf(x) != NoAuth ==> c.locked
    requires s.world.replies != [] && Rejects(x, s.world.replies[0], "REQUEST_RATE_LIMIT_EXCEEDED")
    ensures RateLimitPolicy.maxRetries == 5
    ensures SendOutcome(cfg, t, x, c, sessionId, s) ==
      RetryOutcome(cfg, t, x, c, RateLimitPolicy, MismatchError(x, s.world.replies[0]), Sent(cfg, x, c, sessionId, s))
  {
  }

  /** A non-200 status goes to retry.do with the unbounded policy; the error
      it carries is the status line, or for executeCommon the body excerpt. */
  lemma SendNotOk(cfg: Config, t: NonOkText, x: Exchange, c: Context, sessionId: string, s: State)
    requires AuthOf(x) != NoAuth ==> c.locked
    requires s.world.replies != [] && s.world.replies[0].Answer? && s.world.replies[0].code != 200
    ensures TransportPolicy.maxRetries == -1
    ensures var reply := s.world.replies[0];
      SendOutcome(cfg, t, x, c, sessionId, s) ==
        RetryOutcome(cfg, t, x, c, TransportPolicy, NonOkError(t, reply.status, reply.body.text), Sent(cfg, x, c, sessionId, s))
  {
  }

  /** INSUFFICIENT_PRIVILEGES as written: authorize first; a failed
      authorization is wrapped as "authorize" and nothing is retried;
      otherwise retry.do runs with a budget of one and no backoff. In the
      corrected order retry.do runs first, and authorize and the repeated
      call run under the context it returns. */
  lemma SendReauthorizes(cfg: Config, t: NonOkText, x: Exchange, c: Context, sessionId: string, s: State)
    requires AuthOf(x) != NoAuth ==> c.locked
    requires s.world.replies != [] && Rejects(x, s.world.replies[0], "INSUFFICIENT_PRIVILEGES")
    ensures ReauthPolicy == Policy(Constant(0), 1)
    ensures cfg.reauth == AuthorizeThenRetry ==>
      var a := AuthorizeOutcome(cfg, c, Sent(cfg, x, c, sessionId, s));
      SendOutcome(cfg, t, x, c, sessionId, s) ==
        if a.result.Failure? then Outcome(Failure(Wrapped("authorize", a.result.error)), a.state)
        else RetryOutcome(cfg, t, x, c, ReauthPolicy, MismatchError(x, s.world.replies[0]), a.state)
    ensures cfg.reauth == RetryThenAuthorize ==>
      var s1 := Sent(cfg, x, c, sessionId, s);
      var next := RetryStep(ReauthPolicy, c, s1.world);
      var s2 := s1.(world := next.world);
      SendOutcome(cfg, t, x, c, sessionId, s) ==
        if next.result == Failure(MaxRetriesExceeded) then Outcome(Failure(MismatchError(x, s.world.replies[0])), s2)
        else if next.result.Failure? then Outcome(Failure(next.result.error), s2)
        else
          var a := AuthorizeOutcome(cfg, next.result.value, s2);
          if a.result.Failure? then Outcome(Failure(Wrapped("authorize", a.result.error)), a.state)
          else ExecuteOutcome(cfg, t, x, next.result.value, a.state)
  {
    var s1 := Sent(cfg, x, c, sessionId, s);
    var cause := MismatchError(x, s.world.replies[0]);
    assert SendOutcome(cfg, t, x, c, sessionId, s) == ReauthorizeOutcome(cfg, t, x, c, cause, s1);
    if cfg.reauth == AuthorizeThenRetry {
      assert ReauthorizeOutcome(cfg, t, x, c, cause, s1) == AuthorizeFirstOutcome(cfg, t, x, c, cause, s1);
    } else {
      assert ReauthorizeOutcome(cfg, t, x, c, cause, s1) == RetryFirstOutcome(cfg, t, x, c, cause, s1);
      var next := RetryStep(ReauthPolicy, c, s1.world);
      if next.result.Success? {
        var s2 := s1.(world := next.world);
        assert RetryFirstOutcome(cfg, t, x, c, cause, s1) == RenewedOutcome(cfg, t, x, next.result.value, s2);
      }
    }
  }

  /** An exhausted budget surfaces the reply's own error; nothing else happens. */
  lemma RetryExhausted(cfg: Config, t: NonOkText, x: Exchange, c: Context, p: Policy, cause: Error, s: State)
    requires !Is(cause, MaxRetriesExceeded)
    requires 0 <= p.maxRetries <= c.retries
    ensures RetryOutcome(cfg, t, x, c, p, cause, s) == Outcome(Failure(cause), s)
  {
  }

  /** Within budget, a wait cut short returns the cancellation as it is. */
  lemma RetryInterrupted(cfg: Config, t: NonOkText, x: Exchange, c: Context, p: Policy, cause: Error, s: State)
    requires !Is(cause, MaxRetriesExceeded)
    requires !(0 <= p.maxRetries <= c.retries) && !WaitCompletes(s.world)
    ensures RetryOutcome(cfg, t, x, c, p, cause, s) ==
      Outcome(Failure(Cancelled), s.(world := AfterWait(p, c.retries, s.world)))
  {
  }

  /** Within budget, a completed wait repeats the whole call with a context
      that counts one more attempt. */
  lemma RetryRepeats(cfg: Config, t: NonOkText, x: Exchange, c: Context, p: Policy, cause: Error, s: State)
    requires !Is(cause, MaxRetriesExceeded)
    requires !(0 <= p.maxRetries <= c.retries) && WaitCompletes(s.world)
    ensures RetryOutcome(cfg, t, x, c, p, cause, s) ==
      ExecuteOutcome(cfg, t, x, c.(retries := c.retries + 1), s.(world := AfterWait(p, c.retries, s.world)))
  {
    assert RetryStep(p, c, s.world) == Attempt(Success(c.(retries := c.retries + 1)), AfterWait(p, c.retries, s.world));
  }

  /** As written, a second INSUFFICIENT_PRIVILEGES in the same call chain
      still runs authorize before retry.do refuses, and then surfaces the
      resultCodeError. */
  lemma {:induction false} ReauthorizeAfterBudgetSpent(cfg: Config, t: NonOkText, x: Exchange, ctx: Context, s: State)
    requires cfg.reauth == AuthorizeThenRetry
    requires !Done(ctx, s.world) && ctx.retries >= 1 && (AuthOf(x) == NoAuth || s.session.Some?)
    requires s.world.replies != [] && Rejects(x, s.world.replies[0], "INSUFFICIENT_PRIVILEGES")
    ensures var c := Guarded(x, ctx);
      var sid := if AuthOf(x) == NoAuth then "" else s.session.value;
      var a := AuthorizeOutcome(cfg, c, Sent(cfg, x, c, sid, s));
      ExecuteOutcome(cfg, t, x, ctx, s) ==
        if a.result.Failure? then Outcome(Failure(Wrapped("authorize", a.result.error)), a.state)
        else Outcome(Failure(MismatchError(x, s.world.replies[0])), a.state)
  {
    var c := Guarded(x, ctx);
    var sid := if AuthOf(x) == NoAuth then "" else s.session.value;
    ExecuteSendsAtOnce(cfg, t, x, ctx, s);
    SendReauthorizes(cfg, t, x, c, sid, s);
    var a := AuthorizeOutcome(cfg, c, Sent(cfg, x, c, sid, s));
    if a.result.Success? {
      RetryExhausted(cfg, t, x, c, ReauthPolicy, MismatchError(x, s.world.replies[0]), a.state);
    }
  }

  /** In the corrected order a second INSUFFICIENT_PRIVILEGES in the same
      call chain authorizes no more: retry.do refuses first and the
      resultCodeError is returned after the one request. */
  lemma {:induction false} CorrectedRefusesAfterBudgetSpent(cfg: Config, t: NonOkText, x: Exchange, ctx: Context, s: State)
    requires cfg.reauth == RetryThenAuthorize
    requires !Done(ctx, s.world) && ctx.retries >= 1 && (AuthOf(x) == NoAuth || s.session.Some?)
    requires s.world.replies != [] && Rejects(x, s.world.replies[0], "INSUFFICIENT_PRIVILEGES")
    ensures var sid := if AuthOf(x) == NoAuth then "" else s.session.value;
      ExecuteOutcome(cfg, t, x, ctx, s) ==
        Outcome(Failure(MismatchError(x, s.world.replies[0])), Sent(cfg, x, Guarded(x, ctx), sid, s))
  {
    var sid := if AuthOf(x) == NoAuth then "" else s.session.value;
    ExecuteSendsAtOnce(cfg, t, x, ctx, s);
    SendReauthorizes(cfg, t, x, Guarded(x, ctx), sid, s);
  }

  /** The log of n requests in a row. */
  function Repeat(e: Event, n: nat): (r: seq<Event>)
    ensures |r| == n && forall i :: 0 <= i < n ==> r[i] == e
  {
    if n == 0 then [] else [e] + Repeat(e, n - 1)
  }

  /** authorize begins with the new-session request: whatever it does later
      only extends the log that request left. */
  lemma AuthorizeBeginsWithNewSession(cfg: Config, ctx: Context, s: State)
    ensures ExecuteOutcome(cfg, StatusLine, NewSession, ctx, s).state.world.log <= AuthorizeOutcome(cfg, ctx, s).state.world.log
  {
  }

  lemma PrefixTransitive<T>(a: seq<T>, b: seq<T>, c: seq<T>)
    requires a <= b && b <= c
    ensures a <= c
  {
  }

  /** As written, an INSUFFICIENT_PRIVILEGES answer to the new-session
      request runs a nested authorize on the state that answer left, and the
      call's log extends whatever that nested authorize logged. */
  lemma {:induction false} NewSessionNestsAuthorize(cfg: Config, ctx: Context, s: State)
    requires cfg.reauth == AuthorizeThenRetry && !Done(ctx, s.world)
    requires s.world.replies != [] && Rejects(NewSession, s.world.replies[0], "INSUFFICIENT_PRIVILEGES")
    ensures AuthorizeOutcome(cfg, ctx, Sent(cfg, NewSession, ctx, "", s)).state.world.log <=
            ExecuteOutcome(cfg, StatusLine, NewSession, ctx, s).state.world.log
  {
    ExecuteSendsAtOnce(cfg, StatusLine, NewSession, ctx, s);
    SendReauthorizes(cfg, StatusLine, NewSession, ctx, "", s);
  }

  /** As written, authorize nests without bound: while the server answers the
      new-session request with INSUFFICIENT_PRIVILEGES, each answer starts a
      new authorize before retry.do is asked, so k such answers make k + 1
      new-session requests in a row, whatever the retry budget. */
  lemma {:induction false} SessionRequestNests(cfg: Config, ctx: Context, s: State, k: nat)
    requires cfg.reauth == AuthorizeThenRetry
    requires !ctx.cancelled && Live(s.world, k + 1)
    requires k <= |s.world.replies|
    requires forall i :: 0 <= i < k ==> Rejects(NewSession, s.world.replies[i], "INSUFFICIENT_PRIVILEGES")
    ensures s.world.log + Repeat(Request(cfg, NewSession, ctx, ""), k + 1) <=
            ExecuteOutcome(cfg, StatusLine, NewSession, ctx, s).state.world.log
    decreases k
  {
    var req := Request(cfg, NewSession, ctx, "");
    var s1 := Sent(cfg, NewSession, ctx, "", s);
    var out := ExecuteOutcome(cfg, StatusLine, NewSession, ctx, s);
    assert Repeat(req, k + 1) == [req] + Repeat(req, k);
    assert s.world.log + Repeat(req, k + 1) == s1.world.log + Repeat(req, k);
    if k == 0 {
      ExecuteSendsAtOnce(cfg, StatusLine, NewSession, ctx, s);
    } else {
      assert s1.world.replies == s.world.replies[1..];
      assert Rejects(NewSession, s.world.replies[0], "INSUFFICIENT_PRIVILEGES");
      SessionRequestNests(cfg, ctx, s1, k - 1);
      AuthorizeBeginsWithNewSession(cfg, ctx, s1);
      NewSessionNestsAuthorize(cfg, ctx, s);
      var inner := ExecuteOutcome(cfg, StatusLine, NewSession, ctx, s1).state.world.log;
      var a := AuthorizeOutcome(cfg, ctx, s1).state.world.log;
      PrefixTransitive(s1.world.log + Repeat(req, k), inner, a);
      PrefixTransitive(s1.world.log + Repeat(req, k), a, out.state.world.log);
    }
  }

  /** The same at the level of authorize: k INSUFFICIENT_PRIVILEGES answers
      to the new-session request leave k + 1 new-session requests at the
      head of what authorize logs. */
  lemma {:induction false} AuthorizeNestsWithoutBound(cfg: Config, ctx: Context, s: State, k: nat)
    requires cfg.reauth == AuthorizeThenRetry
    requires !ctx.cancelled && Live(s.world, k + 1)
    requires k <= |s.world.replies|
    requires forall i :: 0 <= i < k ==> Rejects(NewSession, s.world.replies[i], "INSUFFICIENT_PRIVILEGES")
    ensures s.world.log + Repeat(Request(cfg, NewSession, ctx, ""), k + 1) <= AuthorizeOutcome(cfg, ctx, s).state.world.log
  {
    SessionRequestNests(cfg, ctx, s, k);
    AuthorizeBeginsWithNewSession(cfg, ctx, s);
  }

  /** In the corrected order authorize nests once: with a fresh budget and a
      server that answers every new-session request with
      INSUFFICIENT_PRIVILEGES, the first answer counts the one retry before it
      authorizes, the nested authorize's answer finds the budget spent, and
      authorize fails after exactly two new-session requests and one wait. */
  lemma {:induction false} CorrectedAuthorizeNestsOnce(cfg: Config, ctx: Context, s: State)
    requires cfg.reauth == RetryThenAuthorize
    requires !ctx.cancelled && ctx.retries == 0 && Live(s.world, 3) && WaitCompletes(s.world)
    requires |s.world.replies| >= 2
    requires Rejects(NewSession, s.world.replies[0], "INSUFFICIENT_PRIVILEGES")
    requires Rejects(NewSession, s.world.replies[1], "INSUFFICIENT_PRIVILEGES")
    ensures var req := Request(cfg, NewSession, ctx, "");
      var cause := MismatchError(NewSession, s.world.replies[1]);
      var r := AuthorizeOutcome(cfg, ctx, s);
      r.result == Failure(Wrapped("get new sessionid", Wrapped("authorize", Wrapped("get new sessionid", cause)))) &&
      r.state.session == s.session &&
      r.state.world.replies == s.world.replies[2..] &&
      r.state.world.log == s.world.log + [req, Waited(ReauthPolicy, 0), req]
  {
    var req := Request(cfg, NewSession, ctx, "");
    var c1 := ctx.(retries := 1);
    var s1 := Sent(cfg, NewSession, ctx, "", s);
    var s2 := s1.(world := AfterWait(ReauthPolicy, 0, s1.world));
    assert s2.world.replies == s.world.replies[1..];
    var cause := MismatchError(NewSession, s.world.replies[1]);
    CorrectedRefusesAfterBudgetSpent(cfg, StatusLine, NewSession, c1, s2);
    var s3 := Sent(cfg, NewSession, c1, "", s2);
    assert ExecuteOutcome(cfg, StatusLine, NewSession, c1, s2) == Outcome(Failure(cause), s3);
    assert AuthorizeOutcome(cfg, c1, s2) == Outcome(Failure(Wrapped("get new sessionid", cause)), s3);
    var cause0 := MismatchError(NewSession, s.world.replies[0]);
    ExecuteSendsAtOnce(cfg, StatusLine, NewSession, ctx, s);
    assert SendOutcome(cfg, StatusLine, NewSession, ctx, "", s) == ReauthorizeOutcome(cfg, StatusLine, NewSession, ctx, cause0, s1);
    assert RetryStep(ReauthPolicy, ctx, s1.world) == Attempt(Success(c1), s2.world);
    assert RetryFirstOutcome(cfg, StatusLine, NewSession, ctx, cause0, s1) == RenewedOutcome(cfg, StatusLine, NewSession, c1, s2);
    assert RenewedOutcome(cfg, StatusLine, NewSession, c1, s2) ==
      Outcome(Failure(Wrapped("authorize", Wrapped("get new sessionid", cause))), s3);
    assert ExecuteOutcome(cfg, StatusLine, NewSession, ctx, s) ==
      Outcome(Failure(Wrapped("authorize", Wrapped("get new sessionid", cause))), s3);
    assert Request(cfg, NewSession, c1, "") == req;
    ThreeInTurn(s.world.log, s1.world.log, s2.world.log, s3.world.log, req, Waited(ReauthPolicy, 0), req);
  }

  lemma ThreeInTurn(l0: seq<Event>, l1: seq<Event>, l2: seq<Event>, l3: seq<Event>, a: Event, b: Event, c: Event)
    requires l1 == l0 + [a] && l2 == l1 + [b] && l3 == l2 + [c]
    ensures l3 == l0 + [a, b, c]
  {
  }

  /** The log of a call answered REQUEST_RATE_LIMIT_EXCEEDED every time,
      from attempt r on: a request and a wait per attempt until the budget
      of five is spent, then the last request. */
  function RateLimitedLog(req: Event, r: nat): seq<Event>
    decreases 5 - r
  {
    if r >= 5 then [req] else [req, Waited(RateLimitPolicy, r)] + RateLimitedLog(req, r + 1)
  }

  /** One REQUEST_RATE_LIMIT_EXCEEDED with the budget unspent: the request,
      one completed wait, and the call again with one more attempt counted. */
  lemma RateLimitedRepeats(cfg: Config, t: NonOkText, x: Exchange, ctx: Context, s: State) returns (c1: Context, s1: State)
    requires ctx.retries < 5 && !Done(ctx, s.world) && WaitCompletes(s.world)
    requires AuthOf(x) == NoAuth || s.session.Some?
    requires s.world.replies != [] && Rejects(x, s.world.replies[0], "REQUEST_RATE_LIMIT_EXCEEDED")
    ensures var sid := if AuthOf(x) == NoAuth then "" else s.session.value;
      c1 == Guarded(x, ctx).(retries := ctx.retries + 1) && Guarded(x, c1) == c1 &&
      s1.session == s.session && s1.world.deadline == s.world.deadline &&
      s1.world.replies == s.world.replies[1..] && s1.world.waits == Rest(s.world.waits) &&
      s1.world.log == s.world.log + [Request(cfg, x, Guarded(x, ctx), sid), Waited(RateLimitPolicy, ctx.retries)] &&
      ExecuteOutcome(cfg, t, x, ctx, s) == ExecuteOutcome(cfg, t, x, c1, s1)
  {
    var sid := if AuthOf(x) == NoAuth then "" else s.session.value;
    var c := Guarded(x, ctx);
    var s0 := Sent(cfg, x, c, sid, s);
    ExecuteSendsAtOnce(cfg, t, x, ctx, s);
    SendRateLimited(cfg, t, x, c, sid, s);
    RetryRepeats(cfg, t, x, c, RateLimitPolicy, MismatchError(x, s.world.replies[0]), s0);
    c1 := c.(retries := c.retries + 1);
    s1 := s0.(world := AfterWait(RateLimitPolicy, c.retries, s0.world));
  }

  /** One REQUEST_RATE_LIMIT_EXCEEDED with the budget spent: the request, then
      its resultCodeError. */
  lemma RateLimitedGivesUp(cfg: Config, t: NonOkText, x: Exchange, ctx: Context, s: State)
    requires ctx.retries >= 5 && !Done(ctx, s.world)
    requires AuthOf(x) == NoAuth || s.session.Some?
    requires s.world.replies != [] && Rejects(x, s.world.replies[0], "REQUEST_RATE_LIMIT_EXCEEDED")
    ensures var sid := if AuthOf(x) == NoAuth then "" else s.session.value;
      ExecuteOutcome(cfg, t, x, ctx, s) ==
        Outcome(Failure(MismatchError(x, s.world.replies[0])), Sent(cfg, x, Guarded(x, ctx), sid, s))
  {
    var sid := if AuthOf(x) == NoAuth then "" else s.session.value;
    var c := Guarded(x, ctx);
    ExecuteSendsAtOnce(cfg, t, x, ctx, s);
    SendRateLimited(cfg, t, x, c, sid, s);
    RetryExhausted(cfg, t, x, c, RateLimitPolicy, MismatchError(x, s.world.replies[0]), Sent(cfg, x, c, sid, s));
  }

  /** The next k replies all answer REQUEST_RATE_LIMIT_EXCEEDED. */
  predicate RateLimitedReplies(x: Exchange, replies: seq<Reply>, k: nat)
    decreases k
  {
    k == 0 || (replies != [] && Rejects(x, replies[0], "REQUEST_RATE_LIMIT_EXCEEDED") && RateLimitedReplies(x, replies[1..], k - 1))
  }

  lemma {:induction false} RateLimitedRepliesIndexed(x: Exchange, replies: seq<Reply>, k: nat)
    requires k <= |replies|
    requires forall i :: 0 <= i < k ==> Rejects(x, replies[i], "REQUEST_RATE_LIMIT_EXCEEDED")
    ensures RateLimitedReplies(x, replies, k)
    decreases k
  {
    if k > 0 {
      assert Rejects(x, replies[0], "REQUEST_RATE_LIMIT_EXCEEDED");
      forall i | 0 <= i < k - 1 ensures Rejects(x, replies[1..][i], "REQUEST_RATE_LIMIT_EXCEEDED") {
        assert replies[1..][i] == replies[i + 1];
      }
      RateLimitedRepliesIndexed(x, replies[1..], k - 1);
    }
  }

  lemma {:induction false} RateLimitedRepliesLast(x: Exchange, replies: seq<Reply>, k: nat)
    requires k > 0 && RateLimitedReplies(x, replies, k)
    ensures k <= |replies| && Rejects(x, replies[k - 1], "REQUEST_RATE_LIMIT_EXCEEDED")
    decreases k
  {
    if k > 1 {
      RateLimitedRepliesLast(x, replies[1..], k - 1);
      assert replies[1..][k - 2] == replies[k - 1];
    }
  }

  /** A call the server answers REQUEST_RATE_LIMIT_EXCEEDED every time, with
      every wait running to its end, repeats until the budget of five retries
      is spent and then returns the last resultCodeError. */
  lemma {:induction false} RateLimitedUntilExhausted(cfg: Config, t: NonOkText, x: Exchange, ctx: Context, s: State)
    requires ctx.retries <= 5 && !ctx.cancelled && s.world.deadline.None? && WaitsComplete(s.world)
    requires AuthOf(x) == NoAuth || s.session.Some?
    requires RateLimitedReplies(x, s.world.replies, 6 - ctx.retries)
    ensures var sid := if AuthOf(x) == NoAuth then "" else s.session.value;
      var r := ExecuteOutcome(cfg, t, x, ctx, s);
      6 - ctx.retries <= |s.world.replies| &&
      Rejects(x, s.world.replies[5 - ctx.retries], "REQUEST_RATE_LIMIT_EXCEEDED") &&
      r.result == Failure(MismatchError(x, s.world.replies[5 - ctx.retries])) &&
      r.state.session == s.session &&
      r.state.world.replies == s.world.replies[6 - ctx.retries..] &&
      r.state.world.log == s.world.log + RateLimitedLog(Request(cfg, x, Guarded(x, ctx), sid), ctx.retries)
    decreases 5 - ctx.retries
  {
    var sid := if AuthOf(x) == NoAuth then "" else s.session.value;
    var req := Request(cfg, x, Guarded(x, ctx), sid);
    RateLimitedRepliesLast(x, s.world.replies, 6 - ctx.retries);
    if ctx.retries == 5 {
      RateLimitedGivesUp(cfg, t, x, ctx, s);
    } else {
      assert WaitCompletes(s.world);
      var c1, s1 := RateLimitedRepeats(cfg, t, x, ctx, s);
      WaitsCompleteRest(s.world, s1.world);
      assert RateLimitedReplies(x, s1.world.replies, 6 - c1.retries);
      RateLimitedUntilExhausted(cfg, t, x, c1, s1);
      assert Request(cfg, x, Guarded(x, c1), sid) == req;
      var r1 := ExecuteOutcome(cfg, t, x, c1, s1);
      assert r1.state.world.log == s1.world.log + RateLimitedLog(req, c1.retries);
      RateLimitedCarries(x, req, ctx.retries, c1.retries, s, s1, ExecuteOutcome(cfg, t, x, ctx, s), r1);
    }
  }

  /** The induction step of RateLimitedUntilExhausted on the outcomes alone:
      what the call from the next attempt on ends in, the call from this
      attempt ends in too, one request and one wait earlier. */
  lemma RateLimitedCarries(x: Exchange, req: Event, k: nat, k1: nat, s: State, s1: State, r: Outcome<Envelope>, r1: Outcome<Envelope>)
    requires k < 5 && k1 == k + 1 && 6 - k <= |s.world.replies| && r == r1
    requires s1.session == s.session && s1.world.replies == s.world.replies[1..]
    requires s1.world.log == s.world.log + [req, Waited(RateLimitPolicy, k)]
    requires Rejects(x, s1.world.replies[5 - k1], "REQUEST_RATE_LIMIT_EXCEEDED")
    requires r1.result == Failure(MismatchError(x, s1.world.replies[5 - k1]))
    requires r1.state.session == s1.session && r1.state.world.replies == s1.world.replies[6 - k1..]
    requires r1.state.world.log == s1.world.log + RateLimitedLog(req, k1)
    ensures Rejects(x, s.world.replies[5 - k], "REQUEST_RATE_LIMIT_EXCEEDED")
    ensures r.result == Failure(MismatchError(x, s.world.replies[5 - k]))
    ensures r.state.session == s.session && r.state.world.replies == s.world.replies[6 - k..]
    ensures r.state.world.log == s.world.log + RateLimitedLog(req, k)
  {
    assert s1.world.replies[5 - k1] == s.world.replies[5 - k];
    assert s.world.replies[1..][6 - k1..] == s.world.replies[6 - k..];
    RateLimitedLogUnfolds(s.world.log, s1.world.log, r1.state.world.log, req, k);
  }

  lemma RateLimitedLogUnfolds(l0: seq<Event>, l1: seq<Event>, l2: seq<Event>, req: Event, r: nat)
    requires r < 5
    requires l1 == l0 + [req, Waited(RateLimitPolicy, r)] && l2 == l1 + RateLimitedLog(req, r + 1)
    ensures l2 == l0 + RateLimitedLog(req, r)
  {
  }

  /** From a fresh context: six requests and five waits, in turn, then the
      sixth reply's resultCodeError. */
  lemma {:induction false} RateLimitedSixRequests(cfg: Config, t: NonOkText, x: Exchange, s: State)
    requires s.world.deadline.None? && WaitsComplete(s.world)
    requires AuthOf(x) == NoAuth || s.session.Some?
    requires |s.world.replies| >= 6
    requires forall i :: 0 <= i < 6 ==> Rejects(x, s.world.replies[i], "REQUEST_RATE_LIMIT_EXCEEDED")
    ensures var sid := if AuthOf(x) == NoAuth then "" else s.session.value;
      var req := Request(cfg, x, Guarded(x, Background), sid);
      var r := ExecuteOutcome(cfg, t, x, Background, s);
      Rejects(x, s.world.replies[5], "REQUEST_RATE_LIMIT_EXCEEDED") &&
      r.result == Failure(MismatchError(x, s.world.replies[5])) &&
      r.state.world.log == s.world.log + [req, Waited(RateLimitPolicy, 0), req, Waited(RateLimitPolicy, 1),
                                          req, Waited(RateLimitPolicy, 2), req, Waited(RateLimitPolicy, 3),
                                          req, Waited(RateLimitPolicy, 4), req]
  {
    var sid := if AuthOf(x) == NoAuth then "" else s.session.value;
    var req := Request(cfg, x, Guarded(x, Background), sid);
    RateLimitedRepliesIndexed(x, s.world.replies, 6);
    RateLimitedUntilExhausted(cfg, t, x, Background, s);
    RateLimitedLogFromStart(req);
  }

  lemma RateLimitedLogFromStart(req: Event)
    ensures RateLimitedLog(req, 0) == [req, Waited(RateLimitPolicy, 0), req, Waited(RateLimitPolicy, 1),
                                       req, Waited(RateLimitPolicy, 2), req, Waited(RateLimitPolicy, 3),
                                       req, Waited(RateLimitPolicy, 4), req]
  {
    assert RateLimitedLog(req, 4) == [req, Waited(RateLimitPolicy, 4), req];
    assert RateLimitedLog(req, 3) == [req, Waited(RateLimitPolicy, 3)] + RateLimitedLog(req, 4);
    assert RateLimitedLog(req, 2) == [req, Waited(RateLimitPolicy, 2)] + RateLimitedLog(req, 3);
    assert RateLimitedLog(req, 1) == [req, Waited(RateLimitPolicy, 1)] + RateLimitedLog(req, 2);
  }

  /** Log algebra for the step-by-step proofs below, kept apart from the
      engine's definitions so that it is proved in a small context. */
  lemma TwoThenThree(l0: seq<Event>, l1: seq<Event>, l2: seq<Event>, l3: seq<Event>,
                     a: Event, b: Event, c: Event, d: Event, e: Event)
    requires l1 == l0 + [a] && l2 == l1 + [b] && l3 == l2 + [c, d, e]
    ensures l3 == l0 + [a, b, c, d, e]
  {
  }

  lemma OneThenFive(l0: seq<Event>, l1: seq<Event>, l2: seq<Event>,
                    a: Event, b: Event, c: Event, d: Event, e: Event, f: Event)
    requires l1 == l0 + [a] && l2 == l1 + [b, c, d, e, f]
    ensures l2 == l0 + [a, b, c, d, e, f]
  {
  }

  /** authorize's last two steps with every reply accepted: both are sent
      with the stored session under the lock. */
  lemma {:induction false} FinishDelivers(cfg: Config, ctx: Context, id: string, s: State, e3: Envelope, e4: Envelope)
    requires !ctx.cancelled && Live(s.world, 2) && s.session.Some?
    requires |s.world.replies| >= 2
    requires Accepts(PasswordSignUp(cfg.credential.password), s.world.replies[0], e3)
    requires Accepts(LevelUp, s.world.replies[1], e4)
    ensures var r := FinishOutcome(cfg, ctx, id, s);
      var c := ctx.(locked := true);
      r.result == Success(id) && r.state.session == s.session &&
      r.state.world.replies == s.world.replies[2..] && r.state.world.codes == s.world.codes &&
      r.state.world.log == s.world.log + [
        Request(cfg, PasswordSignUp(cfg.credential.password), c, s.session.value),
        Request(cfg, LevelUp, c, s.session.value)]
  {
    var x := PasswordSignUp(cfg.credential.password);
    ExecuteDelivers(cfg, StatusLine, x, ctx, s, e3);
    var s1 := Sent(cfg, x, ctx.(locked := true), s.session.value, s);
    ExecuteDelivers(cfg, StatusLine, LevelUp, ctx, s1, e4);
    assert s.world.replies[1..][1..] == s.world.replies[2..];
  }

  /** authorize from the code submission on, every reply accepted. */
  lemma {:induction false} ConfirmDelivers(cfg: Config, ctx: Context, id: string, ticket: string, code: string,
                                            s: State, e2: Envelope, e3: Envelope, e4: Envelope)
    requires !ctx.cancelled && Live(s.world, 3) && s.session.Some?
    requires |s.world.replies| >= 3
    requires Accepts(Confirm("sign_up", ticket, code), s.world.replies[0], e2)
    requires Accepts(PasswordSignUp(cfg.credential.password), s.world.replies[1], e3)
    requires Accepts(LevelUp, s.world.replies[2], e4)
    ensures var r := ConfirmOutcome(cfg, ctx, id, ticket, code, s);
      var c := ctx.(locked := true);
      r.result == Success(id) && r.state.session == s.session &&
      r.state.world.replies == s.world.replies[3..] && r.state.world.codes == s.world.codes &&
      r.state.world.log == s.world.log + [
        Request(cfg, Confirm("sign_up", ticket, code), c, s.session.value),
        Request(cfg, PasswordSignUp(cfg.credential.password), c, s.session.value),
        Request(cfg, LevelUp, c, s.session.value)]
  {
    var x := Confirm("sign_up", ticket, code);
    ExecuteDelivers(cfg, StatusLine, x, ctx, s, e2);
    var s1 := Sent(cfg, x, ctx.(locked := true), s.session.value, s);
    assert s.world.replies[1..][2..] == s.world.replies[3..];
    FinishDelivers(cfg, ctx, id, s1, e3, e4);
  }

  /** authorize from the phone sign-up on, every reply accepted and the
      provider answering with a code. */
  lemma {:induction false} SignUpDelivers(cfg: Config, ctx: Context, id: string, s: State,
                                           e1: Envelope, e2: Envelope, e3: Envelope, e4: Envelope, code: string)
    requires !ctx.cancelled && Live(s.world, 5) && s.session.Some?
    requires |s.world.replies| >= 4
    requires Accepts(PhoneSignUp(cfg.credential.phone), s.world.replies[0], e1)
    requires Accepts(Confirm("sign_up", e1.operationTicket, code), s.world.replies[1], e2)
    requires Accepts(PasswordSignUp(cfg.credential.password), s.world.replies[2], e3)
    requires Accepts(LevelUp, s.world.replies[3], e4)
    requires s.world.codes != [] && s.world.codes[0] == Some(code)
    ensures var r := SignUpOutcome(cfg, ctx, id, s);
      var c := ctx.(locked := true);
      r.result == Success(id) && r.state.session == s.session &&
      r.state.world.replies == s.world.replies[4..] && r.state.world.codes == s.world.codes[1..] &&
      r.state.world.log == s.world.log + [
        Request(cfg, PhoneSignUp(cfg.credential.phone), c, s.session.value),
        CodeAsked(cfg.credential.phone),
        Request(cfg, Confirm("sign_up", e1.operationTicket, code), c, s.session.value),
        Request(cfg, PasswordSignUp(cfg.credential.password), c, s.session.value),
        Request(cfg, LevelUp, c, s.session.value)]
  {
    var phone := cfg.credential.phone;
    var x := PhoneSignUp(phone);
    ExecuteDelivers(cfg, StatusLine, x, ctx, s, e1);
    var s1 := Sent(cfg, x, ctx.(locked := true), s.session.value, s);
    var s2 := s1.(world := AfterCode(phone, s1.world));
    assert NextCode(s1.world) == Some(code);
    assert SignUpOutcome(cfg, ctx, id, s) == ConfirmOutcome(cfg, ctx, id, e1.operationTicket, code, s2);
    assert s.world.replies[1..][3..] == s.world.replies[4..];
    ConfirmDelivers(cfg, ctx, id, e1.operationTicket, code, s2, e2, e3, e4);
    var c, sid := ctx.(locked := true), s.session.value;
    TwoThenThree(s.world.log, s1.world.log, s2.world.log, ConfirmOutcome(cfg, ctx, id, e1.operationTicket, code, s2).state.world.log,
                 Request(cfg, x, c, sid), CodeAsked(phone),
                 Request(cfg, Confirm("sign_up", e1.operationTicket, code), c, sid),
                 Request(cfg, PasswordSignUp(cfg.credential.password), c, sid),
                 Request(cfg, LevelUp, c, sid));
  }

  /** The happy path of authorize: six steps in order, the new session stored
      before the phone sign-up and sent with every later request, the
      confirmation carrying the sign-up's ticket and the provider's code. */
  lemma {:induction false} AuthorizeHappyPath(cfg: Config, ctx: Context, s: State,
                                               e0: Envelope, e1: Envelope, e2: Envelope, e3: Envelope, e4: Envelope, code: string)
    requires !ctx.cancelled && Live(s.world, 6)
    requires |s.world.replies| >= 5
    requires Accepts(NewSession, s.world.replies[0], e0)
    requires Accepts(PhoneSignUp(cfg.credential.phone), s.world.replies[1], e1)
    requires Accepts(Confirm("sign_up", e1.operationTicket, code), s.world.replies[2], e2)
    requires Accepts(PasswordSignUp(cfg.credential.password), s.world.replies[3], e3)
    requires Accepts(LevelUp, s.world.replies[4], e4)
    requires s.world.codes != [] && s.world.codes[0] == Some(code)
    ensures var r := AuthorizeOutcome(cfg, ctx, s);
      var id := e0.payload;
      var c := ctx.(locked := true);
      r.result == Success(id) && r.state.session == Some(id) &&
      r.state.world.replies == s.world.replies[5..] &&
      r.state.world.codes == s.world.codes[1..] &&
      r.state.world.log == s.world.log + [
        Request(cfg, NewSession, ctx, ""),
        Request(cfg, PhoneSignUp(cfg.credential.phone), c, id),
        CodeAsked(cfg.credential.phone),
        Request(cfg, Confirm("sign_up", e1.operationTicket, code), c, id),
        Request(cfg, PasswordSignUp(cfg.credential.password), c, id),
        Request(cfg, LevelUp, c, id)]
  {
    var id := e0.payload;
    ExecuteDelivers(cfg, StatusLine, NewSession, ctx, s, e0);
    var s1 := Sent(cfg, NewSession, ctx, "", s).(session := Some(id));
    assert AuthorizeOutcome(cfg, ctx, s) == SignUpOutcome(cfg, ctx, id, s1);
    assert s.world.replies[1..][4..] == s.world.replies[5..];
    SignUpDelivers(cfg, ctx, id, s1, e1, e2, e3, e4, code);
    var c := ctx.(locked := true);
    OneThenFive(s.world.log, s1.world.log, SignUpOutcome(cfg, ctx, id, s1).state.world.log,
                Request(cfg, NewSession, ctx, ""),
                Request(cfg, PhoneSignUp(cfg.credential.phone), c, id),
                CodeAsked(cfg.credential.phone),
                Request(cfg, Confirm("sign_up", e1.operationTicket, code), c, id),
                Request(cfg, PasswordSignUp(cfg.credential.password), c, id),
                Request(cfg, LevelUp, c, id));
  }

  /** authorize stops at its first failing step: the failure is wrapped
      with that step's name, the state is the one that step left, and
      nothing after it is sent or asked for. */
  lemma AuthorizeStopsEarly(cfg: Config, ctx: Context, s: State)
    ensures var r := AuthorizeOutcome(cfg, ctx, s);
      var got := ExecuteOutcome(cfg, StatusLine, NewSession, ctx, s);
      && (got.result.Failure? ==> r == Outcome(Failure(Wrapped("get new sessionid", got.result.error)), got.state))
      && (got.result.Success? ==>
        var phone := ExecuteOutcome(cfg, StatusLine, PhoneSignUp(cfg.credential.phone), ctx,
                                    got.state.(session := Some(got.result.value.payload)));
        && (phone.result.Failure? ==> r == Outcome(Failure(Wrapped("phone sign up", phone.result.error)), phone.state))
        && (phone.result.Success? ==>
          var code := NextCode(phone.state.world);
          var s2 := phone.state.(world := AfterCode(cfg.credential.phone, phone.state.world));
          && (code.None? ==> r == Outcome(Failure(Wrapped("get confirmation code", Foreign("confirmation provider"))), s2))
          && (code.Some? ==>
            var confirmed := ExecuteOutcome(cfg, StatusLine, Confirm("sign_up", phone.result.value.operationTicket, code.value), ctx, s2);
            && (confirmed.result.Failure? ==>
                  r == Outcome(Failure(Wrapped("submit confirmation code", confirmed.result.error)), confirmed.state))
            && (confirmed.result.Success? ==>
              var password := ExecuteOutcome(cfg, StatusLine, PasswordSignUp(cfg.credential.password), ctx, confirmed.state);
              && (password.result.Failure? ==>
                    r == Outcome(Failure(Wrapped("password sign up", password.result.error)), password.state))
              && (password.result.Success? ==>
                var levelUp := ExecuteOutcome(cfg, StatusLine, LevelUp, ctx, password.state);
                levelUp.result.Failure? ==> r == Outcome(Failure(Wrapped("level up", levelUp.result.error)), levelUp.state))))))
  {
    var got := ExecuteOutcome(cfg, StatusLine, NewSession, ctx, s);
    if got.result.Success? {
      var id := got.result.value.payload;
      assert AuthorizeOutcome(cfg, ctx, s) == SignUpOutcome(cfg, ctx, id, got.state.(session := Some(id)));
      var phone := ExecuteOutcome(cfg, StatusLine, PhoneSignUp(cfg.credential.phone), ctx, got.state.(session := Some(id)));
      var code := NextCode(phone.state.world);
      var s2 := phone.state.(world := AfterCode(cfg.credential.phone, phone.state.world));
      if phone.result.Success? && code.Some? {
        var ticket := phone.result.value.operationTicket;
        assert SignUpOutcome(cfg, ctx, id, got.state.(session := Some(id))) == ConfirmOutcome(cfg, ctx, id, ticket, code.value, s2);
        var confirmed := ExecuteOutcome(cfg, StatusLine, Confirm("sign_up", ticket, code.value), ctx, s2);
        if confirmed.result.Success? {
          assert ConfirmOutcome(cfg, ctx, id, ticket, code.value, s2) == FinishOutcome(cfg, ctx, id, confirmed.state);
        }
      }
    }
  }

  /** ping: cancellation skips the probe; a successful probe that reports
      "CLIENT" and a failing probe leave the cache as the probe left it. */
  lemma PingResets(cfg: Config, ctx: Context, s: State)
    requires !Done(ctx, s.world)
    ensures var out := ExecuteOutcome(cfg, StatusLine, Ping, ctx.(locked := true), s);
      var r := PingOutcome(cfg, ctx, s);
      r.world == out.state.world &&
      (r.session.None? <==> (out.result.Success? && out.result.value.payload != "CLIENT") || out.state.session.None?) &&
      (r.session.Some? ==> r.session == out.state.session)
  {
  }

  /** The probe itself never touches the cache: ping checks only. */
  lemma {:induction false} PingProbeKeepsSession(cfg: Config, ctx: Context, s: State, e: Envelope)
    requires !Done(ctx, s.world) && s.session.Some?
    requires s.world.replies != [] && Accepts(Ping, s.world.replies[0], e)
    ensures PingOutcome(cfg, ctx, s).session == if e.payload != "CLIENT" then None else s.session
  {
    ExecuteDelivers(cfg, StatusLine, Ping, ctx.(locked := true), s, e);
  }
}
