/** What the client talks to, replaced by a scripted oracle: the HTTP
    transport with the JSON decoder folded into its replies, the backoff
    clock of retryStrategy, the confirmation-code provider and the session
    probe. The oracle also keeps a log of what the client asked of it. */
module Environment {
  import opened Wrappers
  import opened Errors
  import opened Contexts
  import opened Descriptors

  /** retryStrategy's backoff generators; the durations are in seconds and
      the jitter fraction is kept as the source writes it. */
  datatype Backoff = Exponential(baseSeconds: nat, factor: nat, jitter: real) | Constant(seconds: nat)

  /** A retry policy: the backoff and the attempt budget (-1 means unbounded). */
  datatype Policy = Policy(backoff: Backoff, maxRetries: int)

  /** A non-200 status: one-second exponential backoff, retried without bound. */
  const TransportPolicy := Policy(Exponential(1, 2, 0.5), -1)
  /** REQUEST_RATE_LIMIT_EXCEEDED: one-minute exponential backoff, at most five retries. */
  const RateLimitPolicy := Policy(Exponential(60, 2, 0.2), 5)
  /** After re-authorizing: one immediate retry. */
  const ReauthPolicy := Policy(Constant(0), 1)

  /** The primary protocol's JSON envelope. `payload` is the decoded payload's
      one string of interest (the session ID of sessionIn, the access level of pingIn). */
  datatype Envelope = Envelope(resultCode: string, errorMessage: string, payload: string, operationTicket: string)

  /** What reading and decoding a body yields: `text` is None when reading
      fails; each decoded view is None when that decoding fails. */
  datatype Body = Body(text: Option<string>, envelope: Option<Envelope>, payload: Option<string>, fault: Option<InvestError>)

  /** One answer of the transport to one request. */
  datatype Reply =
    | Unreachable(reason: string)                  // httpClient.Do returned an error
    | Bodiless(status: string)                     // a response without a body
    | Answer(code: int, status: string, body: Body)

  /** The primary protocol's URL query: `origin` and the optional `sessionid`. */
  datatype Query = Query(origin: string, sessionId: Option<string>)

  /** What the client did, in order. */
  datatype Event =
    | Posted(exchange: Exchange, query: Query, locked: bool, limiter: Limiter)
    | Fetched(path: string, sessionId: string, appName: string, appVersion: string, locked: bool)
    | Waited(policy: Policy, attempt: nat)
    | CodeAsked(phone: string)
    | Probed

  /** The oracle's whole state: the answers still to come and the log so far.
      `waits[i]` says whether the i-th backoff wait runs to its end (false: the
      context is cancelled during it); `codes` are the provider's answers
      (None: it failed); `probes` are the session probe's results;
      `deadline`, when present, is the length the log has reached when the
      caller's context is cancelled: every later `ctx.Err()` reports it. */
  datatype World = World(
    replies: seq<Reply>,
    waits: seq<bool>,
    codes: seq<Option<string>>,
    probes: seq<Option<Error>>,
    log: seq<Event>,
    deadline: Option<nat>)

  /** ctx.Err() at this point: the context was cancelled before the call, or
      the cancellation has arrived while the call was running. */
  predicate Done(ctx: Context, w: World) {
    ctx.cancelled || (w.deadline.Some? && w.deadline.value <= |w.log|)
  }

  /** The next n events all happen before any cancellation arrives. */
  predicate Live(w: World, n: nat) {
    w.deadline.None? || |w.log| + n <= w.deadline.value
  }

  /** The world only moves forward: replies are consumed, never produced, and
      the log only grows. */
  predicate Advances(a: World, b: World) {
    |b.replies| <= |a.replies| && a.log <= b.log && b.deadline == a.deadline
  }

  lemma AdvancesTransitive(a: World, b: World, c: World)
    requires Advances(a, b) && Advances(b, c)
    ensures Advances(a, c)
  {
  }

  function Rest<T>(s: seq<T>): seq<T> {
    if s == [] then [] else s[1..]
  }

  /** The next reply; None once the transport has nothing left to say. */
  function NextReply(w: World): Option<Reply> {
    if w.replies == [] then None else Some(w.replies[0])
  }

  function AfterSend(e: Event, w: World): (r: World)
    ensures Advances(w, r) && r.log == w.log + [e]
    ensures w.replies != [] ==> |r.replies| < |w.replies|
  {
    w.(replies := Rest(w.replies), log := w.log + [e])
  }

  function WaitCompletes(w: World): bool {
    w.waits == [] || w.waits[0]
  }

  function AfterWait(p: Policy, attempt: nat, w: World): (r: World)
    ensures Advances(w, r) && r.replies == w.replies && r.log == w.log + [Waited(p, attempt)]
  {
    w.(waits := Rest(w.waits), log := w.log + [Waited(p, attempt)])
  }

  function NextCode(w: World): Option<string> {
    if w.codes == [] then None else w.codes[0]
  }

  function AfterCode(phone: string, w: World): (r: World)
    ensures Advances(w, r) && r.replies == w.replies && r.log == w.log + [CodeAsked(phone)]
  {
    w.(codes := Rest(w.codes), log := w.log + [CodeAsked(phone)])
  }

  function NextProbe(w: World): Option<Error> {
    if w.probes == [] then None else w.probes[0]
  }

  function AfterProbe(w: World): (r: World)
    ensures Advances(w, r) && r.replies == w.replies && r.log == w.log + [Probed]
  {
    w.(probes := Rest(w.probes), log := w.log + [Probed])
  }

  /** The outcome of retry.do and the world after it. */
  datatype Attempt = Attempt(result: Result<Context, Error>, world: World)

  /** retry.do: exhausted once the chain has spent the budget; otherwise one
      backoff wait, which either ends (the derived context counts one more
      attempt) or is cut short by cancellation. */
  function RetryStep(p: Policy, ctx: Context, w: World): (r: Attempt)
    ensures r.result == Failure(MaxRetriesExceeded) <==> 0 <= p.maxRetries <= ctx.retries
    ensures r.result.Failure? ==> r.result.error in {MaxRetriesExceeded, Cancelled}
    ensures r.result.Success? ==> r.result.value == ctx.(retries := ctx.retries + 1)
    ensures Advances(w, r.world) && r.world.replies == w.replies
    ensures r.world.log == w.log || r.world.log == w.log + [Waited(p, ctx.retries)]
  {
    if 0 <= p.maxRetries <= ctx.retries then Attempt(Failure(MaxRetriesExceeded), w)
    else if WaitCompletes(w) then Attempt(Success(ctx.(retries := ctx.retries + 1)), AfterWait(p, ctx.retries, w))
    else Attempt(Failure(Cancelled), AfterWait(p, ctx.retries, w))
  }

  /** n calls of retry.do in a row, each on the context the previous one
      returned, stopping at the first failure. */
  function Retried(p: Policy, ctx: Context, w: World, n: nat): Attempt
    decreases n
  {
    if n == 0 then Attempt(Success(ctx), w)
    else
      var a := RetryStep(p, ctx, w);
      if a.result.Failure? then a else Retried(p, a.result.value, a.world, n - 1)
  }

  /** The waits logged by n completed retries counted from attempt `from`. */
  function Waits(p: Policy, from: nat, n: nat): (r: seq<Event>)
    ensures |r| == n
    ensures forall i :: 0 <= i < n ==> r[i] == Waited(p, from + i)
    decreases n
  {
    if n == 0 then [] else [Waited(p, from)] + Waits(p, from + 1, n - 1)
  }

  /** Every backoff wait still to come runs to its end. */
  predicate WaitsComplete(w: World) {
    forall i :: 0 <= i < |w.waits| ==> w.waits[i]
  }

  /** With every wait running to its end, n retries within the budget all
      succeed, each logging one wait, and leave the counter n higher; once a
      budget N >= 0 has been spent, the next retry.do reports exhaustion. So a
      budget of N allows exactly N completed waits, and the unbounded
      budget (-1) is never exhausted. */
  lemma {:induction false} RetryBudget(p: Policy, ctx: Context, w: World, n: nat)
    requires WaitsComplete(w)
    requires p.maxRetries < 0 || ctx.retries + n <= p.maxRetries
    ensures var r := Retried(p, ctx, w, n);
      r.result == Success(ctx.(retries := ctx.retries + n)) &&
      r.world.replies == w.replies && r.world.log == w.log + Waits(p, ctx.retries, n) &&
      WaitsComplete(r.world)
    ensures p.maxRetries >= 0 && ctx.retries + n == p.maxRetries ==>
      var r := Retried(p, ctx, w, n);
      RetryStep(p, r.result.value, r.world) == Attempt(Failure(MaxRetriesExceeded), r.world)
    decreases n
  {
    if n > 0 {
      var c1, w1 := CompletedRetry(p, ctx, w);
      assert Retried(p, ctx, w, n) == Retried(p, c1, w1, n - 1);
      RetryBudget(p, c1, w1, n - 1);
      WaitsUnfold(w.log, w1.log, Retried(p, c1, w1, n - 1).world.log, p, ctx.retries, n);
    }
  }

  /** One retry.do within the budget whose wait runs to its end. */
  lemma CompletedRetry(p: Policy, ctx: Context, w: World) returns (c1: Context, w1: World)
    requires WaitsComplete(w) && !(0 <= p.maxRetries <= ctx.retries)
    ensures RetryStep(p, ctx, w) == Attempt(Success(c1), w1)
    ensures c1 == ctx.(retries := ctx.retries + 1)
    ensures w1.replies == w.replies && w1.log == w.log + [Waited(p, ctx.retries)] && WaitsComplete(w1)
  {
    c1 := ctx.(retries := ctx.retries + 1);
    w1 := AfterWait(p, ctx.retries, w);
    assert WaitCompletes(w);
    WaitsCompleteRest(w, w1);
  }

  /** Consuming one wait keeps every later one complete. */
  lemma WaitsCompleteRest(w: World, w1: World)
    requires WaitsComplete(w) && w1.waits == Rest(w.waits)
    ensures WaitsComplete(w1)
  {
    forall i | 0 <= i < |w1.waits| ensures w1.waits[i] {
      assert w1.waits[i] == w.waits[i + 1];
    }
  }

  lemma WaitsUnfold(l0: seq<Event>, l1: seq<Event>, l2: seq<Event>, p: Policy, from: nat, n: nat)
    requires n > 0 && l1 == l0 + [Waited(p, from)] && l2 == l1 + Waits(p, from + 1, n - 1)
    ensures l2 == l0 + Waits(p, from, n)
  {
    assert Waits(p, from, n) == [Waited(p, from)] + Waits(p, from + 1, n - 1);
  }

  /** The scripted surroundings as a mutable object. */
  class Oracle {
    var replies: seq<Reply>
    var waits: seq<bool>
    var codes: seq<Option<string>>
    var probes: seq<Option<Error>>
    var log: seq<Event>
    const deadline: Option<nat>

    function View(): World
      reads this
    {
      World(replies, waits, codes, probes, log, deadline)
    }

    constructor (w: World)
      ensures View() == w
    {
      replies, waits, codes, probes, log := w.replies, w.waits, w.codes, w.probes, w.log;
      deadline := w.deadline;
    }

    /** httpClient.Do: the request is logged and the next reply taken. */
    method Send(e: Event) returns (reply: Option<Reply>)
      modifies this
      ensures reply == NextReply(old(View()))
      ensures View() == AfterSend(e, old(View()))
    {
      reply := if replies == [] then None else Some(replies[0]);
      replies := Rest(replies);
      log := log + [e];
    }

    /** ConfirmationProvider.GetConfirmationCode. */
    method AskCode(phone: string) returns (code: Option<string>)
      modifies this
      ensures code == NextCode(old(View()))
      ensures View() == AfterCode(phone, old(View()))
    {
      code := if codes == [] then None else codes[0];
      codes := Rest(codes);
      log := log + [CodeAsked(phone)];
    }

    /** The session probe the secondary protocol consults. */
    method Probe() returns (result: Option<Error>)
      modifies this
      ensures result == NextProbe(old(View()))
      ensures View() == AfterProbe(old(View()))
    {
      result := if probes == [] then None else probes[0];
      probes := Rest(probes);
      log := log + [Probed];
    }

    /** retry.do against this clock. */
    method RetryDo(p: Policy, ctx: Context) returns (r: Result<Context, Error>)
      modifies this
      ensures Attempt(r, View()) == RetryStep(p, ctx, old(View()))
    {
      if 0 <= p.maxRetries <= ctx.retries {
        return Failure(MaxRetriesExceeded);
      }
      var completes := waits == [] || waits[0];
      waits := Rest(waits);
      log := log + [Waited(p, ctx.retries)];
      if completes {
        r := Success(ctx.(retries := ctx.retries + 1));
      } else {
        r := Failure(Cancelled);
      }
    }
  }
}
