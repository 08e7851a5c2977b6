# tinkoff-api client core, modelled in Dafny

This project models the decision logic of a Go client for two Tinkoff web
APIs: the primary "common" protocol (form-encoded POSTs answered by a JSON
envelope with a `resultCode`) and the secondary "invest" protocol (GETs
answered by a bare payload or an `{errorMessage, errorCode}` body).

What is modelled:

- the call descriptors: auth level, path and expected result code of every
  primary request, the paths of the invest requests, and the per-path
  rate-limiter table built by `ClientBuilder.Build`, and `Build` itself,
  with the validator's verdict as an input;
- the exchange engine `executeCommon` / `execute`. It locks and looks up the
  session, builds the query, classifies the reply, and then returns, fails,
  retries or re-authorizes. Its retries go through `retry.do` with a budget,
  and an exhausted budget surfaces the original error;
- the client's session cache and the calls on it: `getSessionID`,
  `ensureSessionID`, `resetSessionID`, the six-step `authorize` and the body
  of one `ping` tick;
- `executeInvest`: ensure a session, one GET, classify the status, and
  re-authorize once on a `"404"` whose probe reports `errUnauthorized`;
- both login flows of `auth_flow.go`. `apiAuthFlow` is the programmatic one.
  `SeleniumAuthFlow` is the browser one, a loop over a table of pending steps;
- the string builders `resultCodeError.Error`, `investError.Error` and
  `ellipsis`.

Everything outside the client is a scripted oracle. The HTTP transport, the
backoff clock, the confirmation-code provider, the session probe of
`executeInvest` and the browser driver each answer from a sequence, and a
log records what the client did, in order.

- `Environment.World` is the oracle's value and `Environment.Oracle` the
  object the methods call.
- The imperative code is modelled by methods: `Engine.Client`'s methods,
  `Invest.ExecuteInvest`, `ApiFlow.ApiAuthorize` and the
  `SeleniumFlow` methods. Each `ensures` ties the method's result and new
  state to a specification function of the old state, or states its result
  directly.
- The lemmas state the source's promises about those functions.

Modelling decisions:

- The two primary engines are the same code except for the error text of a
  non-200 reply. `Engine.NonOkText` picks the text: `BodyExcerpt` for
  `executeCommon` (the body through `ellipsis`, or the status line if the
  body cannot be read), `StatusLine` for `execute`. `Client.authorize` runs
  on `execute`; `apiAuthFlow` runs on `executeCommon`.
- `retry.do` is not part of this model. The model assumes that it keeps a
  single attempt counter, carried in the context it returns and shared by
  the whole call chain. Each call either reports `errMaxRetriesExceeded`
  once `0 <= maxRetries <= attempts`, or waits and returns a context that
  counts one more attempt. The wait may also be cut short by cancellation,
  which is returned as an error (`Environment.RetryStep`).
- Termination: the mutually recursive specification functions decrease on
  the number of transport replies left, then on a rank per function.
  Every retry and every re-authorization follows a consumed reply; a
  forcing call that authorizes before its own request ranks above
  authorize; a transport with no replies left fails the request. That bound comes from the finite reply script alone: in
  the code nothing bounds how deeply `authorize` nests under
  `INSUFFICIENT_PRIVILEGES` (see "## Findings").
- Cancellation: `World.deadline`, when present, is the length the log has
  reached when the caller's context is cancelled. `Environment.Done` is
  `ctx.Err()` at one check: the context came in cancelled, or the deadline
  has passed. The engine reads it at each of the source's checks: after the
  lock (common.go:67-69) and after the session lookup and the rate-limiter
  wait (common.go:87-89). So a cancellation that arrives during a lookup,
  including a whole `authorize` run inside it, is seen by the second check.
  `Environment.Live(w, n)` says that the next n events happen before any
  cancellation.
- The order of the `INSUFFICIENT_PRIVILEGES` branch is a field of the
  configuration, `Engine.ReauthOrder`. `AuthorizeThenRetry` is the
  code as written. `RetryThenAuthorize` is the corrected order of
  "## Findings": retry.do first, then authorize under the context it
  returns, as `executeInvest` does on its `"404"` path. Lemmas about the
  code as written say `cfg.reauth == AuthorizeThenRetry`. `Client.Build`
  builds a client with the order as written, as `ClientBuilder.Build` does;
  a client with the corrected order comes from the `Client` constructor
  given a `Config` whose `reauth` is `RetryThenAuthorize`.
- `ClientBuilder.Build` takes the validator's verdict on the builder's
  required fields as an input (`invalid`). A verdict with an error builds
  nothing and returns that error.
- The browser driver is a `SeleniumFlow.Browser` holding a sequence of
  screens. Each evaluation of the wait condition consumes one screen.
  `SeleniumFlow.ScanStep` is the body of `for xpath, handle := range steps`
  and `SeleniumFlow.Turn` one turn of `for !complete`. The ghost outputs of
  `HandleSteps` and `SeleniumAuthorize` say which screen each handled step
  was displayed on (`at`, a `Trace`) and which screen stopped a failed
  loop (`stop`). `SeleniumFlow.RevealingFlow` runs the browser flow on a
  driver that reveals the phone input, the OTP input and the conversations
  list in turn.
- The context-scoped reentrant lock is a `locked` flag in the context. The
  model records, for every request, whether it was sent under the lock.

Where the code and the design description of the repository disagree, the
model follows the code:

- The design says the re-authorization of `INSUFFICIENT_PRIVILEGES` runs
  once. The code calls `authorize` before it asks retry.do, and the
  requests of `authorize` go back through the same branch. A second
  refusal in the same chain therefore runs `authorize` again before
  retry.do can refuse (`EngineFacts.ReauthorizeAfterBudgetSpent`), and
  a server that keeps refusing the new-session request makes `authorize`
  nest once per refusal, whatever the budget
  (`EngineFacts.AuthorizeNestsWithoutBound`). This is the finding below.
- On the `"404"` path `executeInvest` does not clear the cached session
  before it re-authorizes.
- When `authorize` fails in the `INSUFFICIENT_PRIVILEGES` branch, the
  engine does not reset the session that authorize may already have stored.
- `apiAuthFlow` attaches the new session to the context, but `executeCommon`
  reads the session ID from the client's cache. With an empty cache the
  flow fails at the phone sign-up. With a cached session every later step
  is sent with the old session (`ApiFlowFacts.ApiFlowNeedsCachedSession`,
  `ApiFlowFacts.ApiFlowUsesCachedSession`).
- `SeleniumAuthFlow` reads the session cookie after the loop has ended, not
  as the completion step's own action.

## Model

| member | source | states |
|---|---|---|
| Errors.ResultCodeErrorText | common.go:43-55 | the text starts with `actual + " != " + expected`; it has exactly that length iff the message is empty, and otherwise continues with `" (" + message + ")"` |
| Errors.ResultCodeTextDeterminesMessage | common.go:43-55 | for fixed codes, equal texts come from equal messages |
| Errors.InvestErrorText | invest.go:21-23 | the text is the message, `" ("`, the code and `")"` |
| Errors.InvestErrorTextInjective | invest.go:21-23 | two investErrors sharing their message or their code with equal texts are equal |
| Errors.Ellipsis | invest.go:115-122 | the input is always kept whole as a prefix; the output is the input iff it has at most 200 characters, and otherwise the input followed by `"..."` |
| Contexts.WithSession | auth_flow.go:10-12 | `getSession` of the derived context is the attached session; cancellation, retry count and lock are unchanged |
| Contexts.GetSession | auth_flow.go:14-20 | a context without a session yields nil |
| Descriptors.AuthOf | common.go:227-230 | only sessionIn is unauthenticated; accounts, operations and receipt force a session; ping and the login steps check for one |
| Descriptors.Path | common.go:228-497 | every primary path is under `/common/v1/`; the receipt path is the shopping-receipt one and only it; both sign-ups share `/common/v1/sign_up` |
| Descriptors.ExpectedCode | common.go:258 | phoneSignUpIn alone expects `WAITING_CONFIRMATION`, every other descriptor `OK` |
| Descriptors.InvestPath | invest.go:179-251 | every invest path lies under `/invest-gw` |
| Descriptors.BuiltLimiters | client.go:82-87 | the built table configures exactly the shopping-receipt path |
| Descriptors.RateLimiter | client.go:136-142 | a configured path gets its limiter, every other path the no-op `based.Unlock` |
| Descriptors.BuiltLimiterFor | client.go:82-87 | with the built table, only the receipt call is throttled, by 25 per 75 s and 75 per 11 min, and every other descriptor gets the no-op limiter |
| Environment.Done | common.go:67-69 | (definition) `ctx.Err()` at a check: the context came in cancelled, or the cancellation deadline has been reached by the log |
| Environment.Live | common.go:87-89 | (definition) the next n events all happen before the cancellation arrives |
| Environment.RetryStep | common.go:175-185 | retry.do reports exhaustion iff the budget is non-negative and spent; otherwise it waits once (logged with its attempt number) and returns a context counting one more attempt, or the cancellation; replies are not consumed |
| Environment.Retried | common.go:175-183 | (definition) retry.do called n times in a row, each on the context the previous call returned, stopping at the first failure |
| Environment.RetryBudget | common.go:175-187 | with every wait running to its end, n calls of `RetryStep` in a row within the budget all succeed, log the waits numbered from the counter on and raise the counter by n; once a budget N >= 0 is spent, the next `RetryStep` reports exhaustion; so a budget of N allows exactly N completed waits, and the unbounded budget (-1) is never exhausted |
| Environment.Oracle.Send | common.go:110-117 | the reply is the transport's next answer and the request is appended to the log |
| Environment.Oracle.AskCode | client.go:191 | the answer is the provider's next one (none: it failed) and the request for a code is logged |
| Environment.Oracle.Probe | invest.go:87 | the result is the probe's next answer and the probe is logged |
| Environment.Oracle.RetryDo | common.go:176 | the outcome and the new world are those of `RetryStep` |
| Engine.QueryFor | common.go:101-105 | `origin` is always `web,ib5,platform`; `sessionid` is present iff the session ID is non-empty, and then equals it |
| Engine.EventSound | common.go:59-110 | (definition) a request of an authenticated descriptor is sent under the lock; each retry wait is within its budget; the origin, the non-empty session ID and the path's limiter hold by construction of the request |
| Engine.Sound | common.go:59-110 | (definition) every event of the log is `EventSound` |
| Engine.SoundAppend | common.go:110 | logging a sound event keeps the log `Sound`; every specification function below carries this invariant in its contract |
| Engine.Classify | common.go:126-172 | the envelope is delivered iff the reply has status 200 and the expected result code; a non-200 status selects the unbounded transport policy, with the body excerpt or the status line as the error; `NO_DATA_FOUND` fails with ErrNoDataFound; `REQUEST_RATE_LIMIT_EXCEEDED` selects the 5-retry policy and `INSUFFICIENT_PRIVILEGES` re-authorization, each carrying the resultCodeError; any other code fails with the resultCodeError; all but the last hold in both directions |
| Engine.SessionIDOf | client.go:144-155 | an empty cache gives errUnauthorized; otherwise the cached ID is returned unchanged |
| Engine.ExecuteOutcome | common.go:57-188 | the world only advances; the log stays `Sound`; errMaxRetriesExceeded never escapes; a cached session is never dropped |
| Engine.SendOutcome | common.go:96-172 | the request is the first thing logged, and the same invariants hold for the classification of its reply and what follows |
| Engine.ReauthorizeOutcome | common.go:163-176 | the same invariants for the `INSUFFICIENT_PRIVILEGES` branch, in either order |
| Engine.AuthorizeFirstOutcome | common.go:163-176 | the same invariants for the order as written: authorize, then retry.do |
| Engine.RetryFirstOutcome | common.go:163-185 | the same invariants for the corrected order: retry.do, then authorize and the call again |
| Engine.RenewedOutcome | common.go:164-183 | the same invariants for authorize followed by the whole call under the same context |
| Engine.RetryOutcome | common.go:175-187 | the same invariants for the retry step; what each outcome of retry.do leads to is stated by `EngineFacts.RetryExhausted`, `RetryInterrupted` and `RetryRepeats` |
| Engine.AuthorizeOutcome | client.go:177-214 | the same invariants for authorize; every failure is wrapped with the name of one of its six steps; success leaves a session cached |
| Engine.SignUpOutcome | client.go:188-203 | the same invariants from the phone sign-up on; a failure names one of the steps and a success returns the new session ID |
| Engine.ConfirmOutcome | client.go:196-213 | the same from the code submission on |
| Engine.FinishOutcome | client.go:205-213 | the same for the password sign-up and the level-up |
| Engine.EnsureSessionOutcome | client.go:157-171 | a cached session is returned with nothing else happening; a failure only happens from an empty cache and leaves the cache empty |
| Engine.PingOutcome | client.go:220-227 | a cancelled context skips the probe and changes nothing |
| Engine.Client.constructor | client.go:64-88 | the client holds the configuration, the oracle and the stored session |
| Engine.Client.Build | client.go:58-93 | the build fails iff the validator reports an error, and then returns that error and builds nothing; otherwise a new client holds the credential, the built limiter table, the re-authorization order as written (`AuthorizeThenRetry`) and the stored session |
| Engine.Client.ResetSessionID | client.go:173-175 | the cache is emptied |
| Engine.Client.EnsureSessionID | client.go:157-171 | result and new state are those of `EnsureSessionOutcome` |
| Engine.Client.Authorize | client.go:177-214 | result and new state are those of `AuthorizeOutcome` |
| Engine.Client.SignUp | client.go:188-203 | result and new state are those of `SignUpOutcome` |
| Engine.Client.ConfirmCode | client.go:196-213 | result and new state are those of `ConfirmOutcome` |
| Engine.Client.Finish | client.go:205-213 | result and new state are those of `FinishOutcome` |
| Engine.Client.Execute | client.go:237-363 | result and new state are those of `ExecuteOutcome` |
| Engine.Client.Send | client.go:276-348 | result and new state are those of `SendOutcome` |
| Engine.Client.Reauthorize | client.go:338-358 | result and new state are those of `ReauthorizeOutcome` |
| Engine.Client.AuthorizeFirst | client.go:338-358 | result and new state are those of `AuthorizeFirstOutcome` |
| Engine.Client.RetryFirst | client.go:338-358 | result and new state are those of `RetryFirstOutcome` |
| Engine.Client.Renewed | client.go:339-358 | result and new state are those of `RenewedOutcome` |
| Engine.Client.Retry | client.go:350-362 | result and new state are those of `RetryOutcome` |
| Engine.Client.PingTick | client.go:220-227 | the new state is that of `PingOutcome` |
| EngineFacts.ExecuteSendsAtOnce | common.go:59-105 | auth level none skips the lock and the lookup and sends no session ID; check and force with a cached session send it under the lock, with nothing before the request |
| EngineFacts.ExecuteCheckUnauthorized | common.go:74-82 | check on an empty cache fails with `get sessionid: no sessionid` before any request |
| EngineFacts.ExecuteForceAuthorizes | common.go:72-89 | force on an empty cache authorizes first; a failure is wrapped `get sessionid` with the cache left empty; a cancellation that arrived during authorize ends the call with nothing more sent; otherwise the new session is sent |
| EngineFacts.ExecuteCancelled | common.go:65-89 | a context done when the call starts ends it before any request, whatever the auth level and the cache |
| EngineFacts.ExecuteDelivers | common.go:143-145 | the expected result code returns the envelope after exactly one request, with no wait and no authorization |
| EngineFacts.SendNoDataFound | common.go:153-155 | NO_DATA_FOUND returns ErrNoDataFound and is never retried |
| EngineFacts.SendRejects | common.go:147-151 | any other unexpected code returns the resultCodeError at once |
| EngineFacts.SendRateLimited | common.go:157-161 | REQUEST_RATE_LIMIT_EXCEEDED goes to retry.do with budget 5 |
| EngineFacts.SendNotOk | common.go:126-136 | a non-200 status goes to retry.do with budget -1, carrying the body excerpt or the status line |
| EngineFacts.SendReauthorizes | common.go:163-176 | INSUFFICIENT_PRIVILEGES as written authorizes first, a failure is wrapped `authorize` with no retry, otherwise retry.do runs with budget 1 and zero backoff; in the corrected order retry.do runs first, and authorize and the repeated call run under the context it returns |
| EngineFacts.RetryExhausted | common.go:178-187 | an exhausted budget returns the reply's own error and nothing else happens |
| EngineFacts.RetryInterrupted | common.go:180-181 | any other retry error is returned as it is |
| EngineFacts.RetryRepeats | common.go:182-183 | a completed wait repeats the whole call with the derived context |
| EngineFacts.RateLimitedRepeats | common.go:157-183 | a REQUEST_RATE_LIMIT_EXCEEDED answer within the budget logs one request and one wait and leaves the call to the next attempt |
| EngineFacts.RateLimitedGivesUp | common.go:175-187 | with the budget of five spent, a REQUEST_RATE_LIMIT_EXCEEDED answer returns its resultCodeError after the one request |
| EngineFacts.RateLimitedUntilExhausted | common.go:157-187 | from attempt k, a server answering REQUEST_RATE_LIMIT_EXCEEDED every time gets 6 - k requests with a wait between each two, and the call returns the last answer's resultCodeError with the cache untouched |
| EngineFacts.RateLimitedSixRequests | common.go:157-187 | from a fresh context: exactly six requests and five waits, numbered 0 to 4, in turn, then the sixth answer's resultCodeError |
| EngineFacts.ReauthorizeAfterBudgetSpent | common.go:163-187 | as written, a second INSUFFICIENT_PRIVILEGES in one chain runs authorize again and then returns the resultCodeError |
| EngineFacts.CorrectedRefusesAfterBudgetSpent | common.go:163-187 | in the corrected order, a second INSUFFICIENT_PRIVILEGES returns the resultCodeError after the one request, with no authorize |
| EngineFacts.AuthorizeBeginsWithNewSession | client.go:177-181 | everything authorize logs extends what its new-session request logged |
| EngineFacts.NewSessionNestsAuthorize | client.go:179 | as written, an INSUFFICIENT_PRIVILEGES answer to the new-session request runs a nested authorize, whose log the call's log extends |
| EngineFacts.SessionRequestNests | common.go:163-166 | as written, k INSUFFICIENT_PRIVILEGES answers to the new-session request give k + 1 new-session requests in a row, whatever the retry budget |
| EngineFacts.AuthorizeNestsWithoutBound | client.go:177-181 | as written, k such answers put k + 1 new-session requests at the head of authorize's log |
| EngineFacts.CorrectedAuthorizeNestsOnce | client.go:338-351 | in the corrected order, with a fresh budget and every new-session request refused, authorize fails after exactly two new-session requests and one wait, with the nested resultCodeError |
| EngineFacts.FinishDelivers | client.go:205-213 | both last steps accepted: two requests with the stored session under the lock, and the new session ID returned |
| EngineFacts.ConfirmDelivers | client.go:196-213 | the last three steps accepted: the confirmation with the given ticket and code, then the last two steps |
| EngineFacts.SignUpDelivers | client.go:188-213 | from the phone sign-up on, every reply accepted and a code given: sign-up, code request, confirmation with the sign-up's ticket, then the last two steps |
| EngineFacts.AuthorizeHappyPath | client.go:177-214 | with five accepting replies and a code, authorize returns the new session and caches it; it sends the six steps in order, every step after the first with the new session; the confirmation carries the sign-up's ticket and the provider's code |
| EngineFacts.AuthorizeStopsEarly | client.go:177-214 | for each of the six steps: when it is the first to fail, authorize returns its error wrapped with that step's name, in the state that step left, with nothing after it sent or asked for |
| EngineFacts.PingResets | client.go:220-224 | ping clears the session exactly when the probe succeeds with an access level other than CLIENT; otherwise the cache is as the probe left it |
| EngineFacts.PingProbeKeepsSession | client.go:220-224 | a successful probe of a cached session clears it iff the level is not CLIENT |
| Invest.ClassifyInvest | invest.go:69-112 | 200 gives the payload, or an unmarshal error; 400-599 gives the status when the body cannot be read, `ellipsis(body)` when it is not an investError, a possible expiry for code "404", the investError otherwise; any other status gives the status; the payload and the possible-expiry cases hold in both directions |
| Invest.ExecuteInvestOutcome | invest.go:30-113 | the world only advances, the log stays sound (every GET has both app headers and the lock), errMaxRetriesExceeded never escapes |
| Invest.ProbeOutcome | invest.go:85-106 | the same invariants for what follows a "404": the probe, retry.do, authorize and the repeated call |
| Invest.ExecuteInvest | invest.go:30-113 | result and new state are those of `ExecuteInvestOutcome` |
| Invest.Probe | invest.go:85-106 | result and new state are those of `ProbeOutcome` |
| InvestFacts.InvestDelivers | invest.go:37-76 | status 200 returns the payload from one GET that carries the cached session ID |
| InvestFacts.InvestNeedsSession | invest.go:37-40 | a failed session lookup is wrapped `ensure sessionid` and no GET is sent |
| InvestFacts.InvestSendsEnsuredSession | invest.go:37-58 | the GET comes right after the session was ensured and carries that session ID |
| InvestFacts.InvestFaultReturned | invest.go:85-106 | any error code but "404", and a "404" whose probe is not errUnauthorized, return the investError without a retry |
| InvestFacts.InvestReauthorizes | invest.go:87-102 | a "404" with an unauthorized probe and an unspent budget waits, authorizes and repeats the call; a failed authorize is wrapped `authorize` |
| InvestFacts.InvestSecondNotFoundIsFinal | invest.go:93-96 | with the budget spent, a "404" with an unauthorized probe returns the investError with no authorize and no further GET |
| InvestFacts.InvestReauthorizesOnce | invest.go:85-106 | two "404"s with unauthorized probes and an authorize in between end with the second investError |
| ApiFlow.ApiAuthorizeOutcome | auth_flow.go:28-63 | the world only advances, the log stays sound, every failure names one of the six steps |
| ApiFlow.ApiSignUpOutcome | auth_flow.go:37-63 | the same from the phone sign-up on, under the context that carries the new session |
| ApiFlow.ApiConfirmOutcome | auth_flow.go:45-63 | the same from the code submission on |
| ApiFlow.ApiFinishOutcome | auth_flow.go:54-62 | the same for the password sign-up and the level-up |
| ApiFlow.ApiAuthorize | auth_flow.go:28-63 | result and new state are those of `ApiAuthorizeOutcome` |
| ApiFlow.ApiSignUp | auth_flow.go:37-63 | result and new state are those of `ApiSignUpOutcome` |
| ApiFlow.ApiConfirm | auth_flow.go:45-63 | result and new state are those of `ApiConfirmOutcome` |
| ApiFlow.ApiFinish | auth_flow.go:54-62 | result and new state are those of `ApiFinishOutcome` |
| ApiFlowFacts.ApiFlowNeedsCachedSession | auth_flow.go:30-38 | with an empty cache the flow fails at the phone sign-up with `phone sign up: get sessionid: no sessionid` |
| ApiFlowFacts.ApiFinishUsesCachedSession | auth_flow.go:54-62 | the last two steps are sent with the cached session, not the new one, and return the new session ID |
| ApiFlowFacts.ApiConfirmUsesCachedSession | auth_flow.go:45-62 | the same from the code submission on |
| ApiFlowFacts.ApiSignUpUsesCachedSession | auth_flow.go:37-62 | the same from the phone sign-up on, with the code asked for between the sign-up and its confirmation |
| ApiFlowFacts.ApiFlowUsesCachedSession | auth_flow.go:28-63 | with a cached session the flow returns the new session ID; every later step is sent with the cached one, which stays cached |
| ApiFlowFacts.ApiAuthorizeStopsEarly | auth_flow.go:28-63 | for each of the six steps: when it is the first to fail, the flow returns its error wrapped with that step's name, with nothing after it sent or asked for |
| SeleniumFlow.Handle | auth_flow.go:87-98 | the conversations handler sends nothing and cannot fail; the OTP handler asks for the code first and fails wrapped `get confirmation code` without one; the other handlers fail iff the driver refuses |
| SeleniumFlow.Performed | auth_flow.go:121-126 | (definition) the actions the handlers of a run of successfully handled steps sent, in order |
| SeleniumFlow.LaunchFailure | auth_flow.go:70-83 | start-up succeeds iff no stage fails; a NewRemote failure is wrapped `create remote` |
| SeleniumFlow.Browser.Observe | auth_flow.go:110-116 | the next evaluation of the wait condition sees the next scripted screen (what `FindElements` and `IsDisplayed` report); nothing is sent |
| SeleniumFlow.Browser.Send | auth_flow.go:87-97 | what a handler sends (`SendKeys`, `Click`, the code request) is appended to the page's actions |
| SeleniumFlow.StepTable.constructor | auth_flow.go:85-99 | the table starts with all five steps pending and not complete |
| SeleniumFlow.Idle | auth_flow.go:103-132 | (definition) the wait condition answers false on a screen: the context is not done and every pending step's elements are found and hidden |
| SeleniumFlow.Faulty | auth_flow.go:110-124 | (definition) a step whose evaluation returns an error: `FindElements` fails, `IsDisplayed` fails before any element is displayed, or the step is displayed and its handler fails |
| SeleniumFlow.Halts | auth_flow.go:103-124 | (definition) the wait condition returns an error on a screen: the context is done, or some pending step is faulty |
| SeleniumFlow.ScanStep | auth_flow.go:110-129 | for one XPath: nothing is handled iff its elements are found and all hidden; a handled step is displayed, deleted, its actions sent, and it alone sets `complete`; an error leaves the table unchanged, is wrapped with one of the step's three phrases, and the step is faulty on that screen |
| SeleniumFlow.Poll | auth_flow.go:102-133 | cancellation is checked first; nothing is handled iff the screen is idle for the pending steps; a handled step was pending and displayed, is deleted, its actions were sent, and only the conversations step sets `complete`; an error leaves the table unchanged, is cancellation or names a pending step, and the screen halts the condition |
| SeleniumFlow.WaitFor | auth_flow.go:102-135 | the wait ends with a handled step or an error, never with nothing; it evaluated the first k screens (`b.screens` is what is left); on a timeout all k were idle and none is left; otherwise all but the k-th were idle, and the k-th displayed the handled step or halted the condition; a handled step is deleted from the table and its actions sent |
| SeleniumFlow.DistinctBounded | auth_flow.go:101-136 | a run of distinct steps from the table is no longer than the table |
| SeleniumFlow.Run | auth_flow.go:101-136 | (definition) steps handled without repetition, all from the table, the conversations step only last |
| SeleniumFlow.Remaining | auth_flow.go:126 | (definition) the table after a run: the five steps less those handled |
| SeleniumFlow.RemainingUnhandled | auth_flow.go:121-127 | a step still in the table was never handled |
| SeleniumFlow.RemainingWithin | auth_flow.go:126 | the table after any run holds no step it did not start with |
| SeleniumFlow.Extend | auth_flow.go:121-127 | handling a pending step keeps the run distinct and deletes exactly that step |
| SeleniumFlow.Start | auth_flow.go:101-136 | (definition) the number of screens a trace has evaluated |
| SeleniumFlow.Trace | auth_flow.go:101-136 | (definition) the i-th handled step was displayed on screen at[i], the screens increase, and every screen evaluated between two handled steps was idle for the steps then pending |
| SeleniumFlow.TraceExtend | auth_flow.go:101-136 | a wait that evaluated k more screens and handled a step on the last extends the trace by that step at that screen |
| SeleniumFlow.Looping | auth_flow.go:101-136 | (definition) what the `for !complete` loop keeps: the table is the steps not yet handled, `complete` iff the conversations list was handled, the run has a trace, and the driver holds the screens after it |
| SeleniumFlow.Advance | auth_flow.go:101-136 | a turn that handled a pending step keeps what the loop keeps, shrinks the table, and appends exactly that step's actions |
| SeleniumFlow.Stopped | auth_flow.go:101-135 | (definition) how a failed loop ended: the screens after the trace up to `stop` were idle, and `stop` is past the last screen or a screen that halts the condition |
| SeleniumFlow.WaitStops | auth_flow.go:102-135 | a failed wait stops the loop at the last screen it evaluated, or past the last screen exactly when it timed out; its error is a flow error |
| SeleniumFlow.Turn | auth_flow.go:102-135 | one turn of the loop: a handled step extends the run and keeps what the loop keeps, with the table smaller; an error leaves the run as it was and says which screen stopped the loop and why |
| SeleniumFlow.HandleSteps | auth_flow.go:101-136 | the steps are handled without repetition, each on a screen that displayed it, with every screen in between idle; the loop succeeds iff the conversations step was handled, and then it is last and exactly the handlers' actions were sent in order; a failure is cancellation, a timeout or a step error, and names the screen that stopped the loop (past the last one iff it timed out) |
| SeleniumFlow.SeleniumAuthorize | auth_flow.go:69-146 | a start-up failure is returned wrapped with its stage and nothing is handled; the handled steps have a trace over the screens; a loop that never reached the conversations list fails and says where it stopped; one that reached it returns the api_session cookie, or `session cookie not found` when there is none; a success sent exactly the handlers' actions after at most five distinct steps |
| SeleniumFlow.ShowingOnly | auth_flow.go:109-128 | on a screen that shows one step's element, only that step is displayed, and the screen is not idle while the step is pending |
| SeleniumFlow.RevealPending | auth_flow.go:126 | before the n-th reveal the n-th step of the phone, OTP, conversations order is still in the table |
| SeleniumFlow.RevealedPrefix | auth_flow.go:101-136 | over screens that reveal the phone input, the OTP input and the conversations list in turn, every trace handles a prefix of that order, the i-th step on the i-th screen |
| SeleniumFlow.RevealedInTurn | auth_flow.go:87-98 | over those screens a run that reached the conversations list is exactly phone, OTP, conversations, and sent exactly the phone with Enter, the code request and the code |
| SeleniumFlow.ShowingNeverHalts | auth_flow.go:103-124 | a screen that shows one element, with the code at hand, never makes the condition return an error |
| SeleniumFlow.RevealedCompletes | auth_flow.go:101-136 | over those screens the loop cannot stop before the conversations list |
| SeleniumFlow.RevealingFlow | auth_flow.go:69-146 | the browser flow against a driver that reveals the phone input, the OTP input and the conversations list, with the code and the cookie at hand, returns the cookie and sends exactly the three actions in order |

## Findings

| source | as written | input that shows it | evidently intended | confidence | as-written member | corrected member |
|---|---|---|---|---|---|---|
| common.go:163-176 | on `INSUFFICIENT_PRIVILEGES` the engine calls `authorize` before `retry.do`, and `authorize`'s own requests go through the same engine (client.go:179, 338-351), so each refusal nests one more `authorize` and the budget of one never stops it | a server that answers every new-session request with `INSUFFICIENT_PRIVILEGES`: k refusals give k + 1 new-session requests and no wait, however many attempts are already counted | consult the budget of one first, so one call chain re-authorizes at most once, as `executeInvest` does on its `"404"` path | not executed | EngineFacts.AuthorizeNestsWithoutBound | EngineFacts.CorrectedAuthorizeNestsOnce |

## Left out

- Cancellation is observed at each `ctx.Err()` check through the deadline. A cancellation that interrupts a limiter wait or an HTTP request while it runs is not modelled: the limiter wait is not modelled, and the request still gets its reply.
- HTTP transport, request construction, form encoding (`query.Values`) and JSON decoding are not modelled. Each reply arrives already decoded, or marked as undecodable. The errors of `query.Values` and `http.NewRequest` cannot be produced by the model.
- Build: the validator's rules (which builder fields are required, client.go:59-63) are not modelled; its verdict is an input of `Client.Build`. The ping goroutine Build starts (client.go:90) is left out with the ping loop below.
- The `unsupported auth` branch (common.go:76-77) is not modelled, because the auth enum has no fourth value.
- The lock, the ping ticker loop and the goroutine that runs it (client.go:90, 217-234) are concurrency and timing. Only one loop body (`PingTick`) and the lock flag are modelled.
- `retryStrategy`, `exponentialRetryTimeout` and `constantRetryTimeout` are not part of this model. The backoff parameters are recorded as data, and the durations, the jitter and the sleeping are not modelled. How the attempt counter travels through the context is an assumption, stated above.
- The `based` library is not part of this model: the `Semaphore` windows are data only, and the session cache is an option field. Storage load and update errors, including `store new sessionid` at client.go:183-185, are not modelled.
- `Client.Close` and `driver.Close` only release resources and are not modelled.
- The invest probe (`c.ping(ctx)` at invest.go:87) is an abstract call returning an error or none, because `ping` as defined at client.go:216 returns nothing.
- client.go:365-403 is a stub of `executeInvest` that panics. It is not modelled; invest.go's version is.
- The DTOs and time conversions, example/main.go and client_test.go are not part of this model.
- The browser driver is an observation oracle. The order in which the step table is iterated is an unspecified choice. The driver's Wait timeout is modelled as the observations running out.
- Engine.PingOutcome: its own contract only states the cancelled case; what a tick does otherwise is stated by `EngineFacts.PingResets`.
