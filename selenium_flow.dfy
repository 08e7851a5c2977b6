/** SeleniumAuthFlow.authorize of auth_flow.go: a browser login driven by a
    table of pending steps, each keyed by the XPath of the element it waits
    for, polled until the conversations list appears. */
module SeleniumFlow {
  import opened Wrappers
  import opened Errors
  import opened Engine

  /** The five entries of the step table. */
  datatype Step = PhoneInput | PasswordInput | OtpInput | CancelButton | ConversationsList

  /** The XPath each step waits for. */
  function Locator(st: Step): string {
    match st
    case PhoneInput => "//input[@automation-id='phone-input']"
    case PasswordInput => "//input[@automation-id='password-input']"
    case OtpInput => "//input[@automation-id='otp-input']"
    case CancelButton => "//button[@automation-id='cancel-button']"
    case ConversationsList => "//div[@automation-id='conversations-list']"
  }

  const AllSteps: set<Step> := {PhoneInput, PasswordInput, OtpInput, CancelButton, ConversationsList}

  /** selenium.EnterKey. */
  const EnterKey: string := [0xE007 as char]

  /** What IsDisplayed answers for one found element. */
  datatype Visibility = Shown | Hidden | Unknown(reason: string)

  /** One evaluation of the wait condition observes: whether the context is
      done, what FindElements returns per XPath (the elements' visibility,
      or the driver's error; an XPath absent from the map finds nothing),
      and whether the driver refuses the keys or click it is sent. */
  datatype Screen = Screen(cancelled: bool, found: map<Step, Result<seq<Visibility>, string>>, refusal: Option<string>)

  /** How the driver reacts to starting up: the error of NewRemote,
      MaximizeWindow and Get of the login page, if any. */
  datatype Launch = Launch(remote: Option<string>, maximize: Option<string>, open: Option<string>)

  /** What the handlers send to the page or ask for. */
  datatype Action = Typed(step: Step, keys: string) | Clicked(step: Step) | AskedCode

  function Elements(screen: Screen, st: Step): Result<seq<Visibility>, string> {
    if st in screen.found then screen.found[st] else Success([])
  }

  predicate HiddenUpTo(vs: seq<Visibility>, n: int) {
    forall j :: 0 <= j < n && j < |vs| ==> vs[j] == Hidden
  }

  /** FindElements succeeds and none of the elements is displayed. */
  predicate Quiet(screen: Screen, st: Step) {
    Elements(screen, st).Success? && HiddenUpTo(Elements(screen, st).value, |Elements(screen, st).value|)
  }

  /** FindElements succeeds and its first element that is not hidden is
      displayed (so IsDisplayed answered for all before it). */
  predicate Displayed(screen: Screen, st: Step) {
    Elements(screen, st).Success? &&
    exists i :: 0 <= i < |Elements(screen, st).value| && Elements(screen, st).value[i] == Shown &&
                HiddenUpTo(Elements(screen, st).value, i)
  }

  /** A handler run: what it sent, and its error if any. */
  datatype Handling = Handling(actions: seq<Action>, failure: Option<Error>)

  /** The five handlers. The phone and password handlers type the credential
      and Enter, the OTP handler asks the provider for the code and types it,
      the cancel handler clicks, the conversations handler only marks the
      flow complete. */
  function Handle(cred: Credential, code: Option<string>, st: Step, refusal: Option<string>): (h: Handling)
    ensures st == ConversationsList <==> h == Handling([], None)
    ensures st == OtpInput ==> |h.actions| >= 1 && h.actions[0] == AskedCode
    ensures st == OtpInput && code.None? ==>
              h == Handling([AskedCode], Some(Wrapped("get confirmation code", Foreign("confirmation provider"))))
    ensures st != ConversationsList && (st != OtpInput || code.Some?) ==> (h.failure.Some? <==> refusal.Some?)
  {
    var refused := if refusal.Some? then Some(Foreign(refusal.value)) else None;
    match st
    case PhoneInput => Handling([Typed(PhoneInput, cred.phone + EnterKey)], refused)
    case PasswordInput => Handling([Typed(PasswordInput, cred.password + EnterKey)], refused)
    case OtpInput =>
      if code.None? then Handling([AskedCode], Some(Wrapped("get confirmation code", Foreign("confirmation provider"))))
      else Handling([AskedCode, Typed(OtpInput, code.value)], refused)
    case CancelButton => Handling([Clicked(CancelButton)], refused)
    case ConversationsList => Handling([], None)
  }

  /** What the handlers of a run of successfully handled steps sent, in order. */
  function Performed(cred: Credential, code: Option<string>, handled: seq<Step>): seq<Action> {
    if handled == [] then []
    else Performed(cred, code, handled[..|handled| - 1]) + Handle(cred, code, handled[|handled| - 1], None).actions
  }

  /** The first failure of the driver's start-up, wrapped with its stage. */
  function LaunchFailure(l: Launch): (e: Option<Error>)
    ensures e.None? <==> l.remote.None? && l.maximize.None? && l.open.None?
    ensures l.remote.Some? ==> e == Some(Wrapped("create remote", Foreign(l.remote.value)))
  {
    if l.remote.Some? then Some(Wrapped("create remote", Foreign(l.remote.value)))
    else if l.maximize.Some? then Some(Wrapped("maximize window", Foreign(l.maximize.value)))
    else if l.open.Some? then Some(Wrapped("open login page", Foreign(l.open.value)))
    else None
  }

  /** The browser session and the confirmation provider as one scripted
      object: one screen per evaluation of the wait condition, the provider's
      answer, the api_session cookie, and what was sent to the page. */
  class Browser {
    const launch: Launch
    const code: Option<string>
    const cookie: Option<string>
    var screens: seq<Screen>
    var actions: seq<Action>

    constructor (launch: Launch, code: Option<string>, cookie: Option<string>, screens: seq<Screen>)
      ensures this.launch == launch && this.code == code && this.cookie == cookie
      ensures this.screens == screens && actions == []
    {
      this.launch := launch;
      this.code := code;
      this.cookie := cookie;
      this.screens := screens;
      this.actions := [];
    }

    /** What the next evaluation of the wait condition sees. */
    method Observe() returns (screen: Screen)
      requires screens != []
      modifies this
      ensures screen == old(screens[0]) && screens == old(screens[1..]) && actions == old(actions)
    {
      screen := screens[0];
      screens := screens[1..];
    }

    method Send(sent: seq<Action>)
      modifies this
      ensures actions == old(actions) + sent && screens == old(screens)
    {
      actions := actions + sent;
    }
  }

  /** The step table and the flag the conversations handler sets. */
  class StepTable {
    var pending: set<Step>
    var complete: bool

    constructor ()
      ensures pending == AllSteps && !complete
    {
      pending := AllSteps;
      complete := false;
    }
  }

  datatype PollResult = Handled(step: Step) | Nothing | Broken(error: Error)

  /** A step whose evaluation stops the wait with an error: FindElements
      fails, IsDisplayed fails before any element is displayed, or the step
      is displayed and its handler fails. */
  predicate Faulty(cred: Credential, code: Option<string>, screen: Screen, st: Step) {
    Elements(screen, st).Failure? ||
    (exists i :: 0 <= i < |Elements(screen, st).value| && Elements(screen, st).value[i].Unknown? &&
                 HiddenUpTo(Elements(screen, st).value, i)) ||
    (Displayed(screen, st) && Handle(cred, code, st, screen.refusal).failure.Some?)
  }

  /** A screen on which the wait condition returns an error. */
  predicate Halts(cred: Credential, code: Option<string>, screen: Screen, pending: set<Step>) {
    screen.cancelled || exists st :: st in pending && Faulty(cred, code, screen, st)
  }

  /** One XPath of the wait condition: find its elements and ask each in
      turn whether it is displayed; the first displayed one is handled and
      its step deleted, and any error stops the poll. */
  method ScanStep(table: StepTable, b: Browser, cred: Credential, screen: Screen, st: Step) returns (p: PollResult)
    modifies table, b
    ensures p.Nothing? <==> Quiet(screen, st)
    ensures p.Handled? ==> p.step == st && Displayed(screen, st)
    ensures p.Handled? ==> table.pending == old(table.pending) - {st}
    ensures p.Handled? ==> table.complete == (old(table.complete) || st == ConversationsList)
    ensures p.Handled? ==> b.actions == old(b.actions) + Handle(cred, b.code, st, None).actions
    ensures !p.Handled? ==> table.pending == old(table.pending) && table.complete == old(table.complete)
    ensures p.Nothing? ==> b.actions == old(b.actions)
    ensures old(b.actions) <= b.actions && b.screens == old(b.screens)
    ensures p.Broken? ==> p.error.Wrapped? && p.error.context in Phrases(st) && Faulty(cred, b.code, screen, st)
  {
    var found := Elements(screen, st);
    if found.Failure? {
      return Broken(Wrapped(FindPhrase(st), Foreign(found.error)));
    }
    var vs := found.value;
    var i := 0;
    while i < |vs|
      invariant 0 <= i <= |vs| && HiddenUpTo(vs, i)
    {
      if vs[i].Unknown? {
        return Broken(Wrapped(DisplayedPhrase(st), Foreign(vs[i].reason)));
      }
      if vs[i] == Shown {
        var h := Handle(cred, b.code, st, screen.refusal);
        b.Send(h.actions);
        if h.failure.Some? {
          return Broken(Wrapped(HandlePhrase(st), h.failure.value));
        }
        if st == ConversationsList {
          table.complete := true;
        }
        table.pending := table.pending - {st};
        return Handled(st);
      }
      i := i + 1;
    }
    return Nothing;
  }

  /** One evaluation of the wait condition: cancellation first, then the
      pending steps in the table's (unspecified) order, until one of them
      is handled or fails. */
  method Poll(table: StepTable, b: Browser, cred: Credential, screen: Screen) returns (p: PollResult)
    modifies table, b
    ensures screen.cancelled ==> p == Broken(Cancelled)
    ensures p.Nothing? <==> Idle(screen, old(table.pending))
    ensures p.Handled? ==> p.step in old(table.pending) && Displayed(screen, p.step)
    ensures p.Handled? ==> table.pending == old(table.pending) - {p.step}
    ensures p.Handled? ==> table.complete == (old(table.complete) || p.step == ConversationsList)
    ensures p.Handled? ==> b.actions == old(b.actions) + Handle(cred, b.code, p.step, None).actions
    ensures !p.Handled? ==> table.pending == old(table.pending) && table.complete == old(table.complete)
    ensures p.Nothing? ==> b.actions == old(b.actions)
    ensures old(b.actions) <= b.actions && b.screens == old(b.screens)
    ensures p.Broken? ==> p.error == Cancelled || StepError(p.error, old(table.pending))
    ensures p.Broken? ==> Halts(cred, b.code, screen, old(table.pending))
  {
    if screen.cancelled {
      return Broken(Cancelled);
    }
    var left := table.pending;
    while left != {}
      invariant left <= table.pending == old(table.pending) && table.complete == old(table.complete)
      invariant forall st :: st in old(table.pending) && st !in left ==> Quiet(screen, st)
      invariant b.actions == old(b.actions) && b.screens == old(b.screens)
      decreases |left|
    {
      var st :| st in left;
      left := left - {st};
      p := ScanStep(table, b, cred, screen, st);
      if !p.Nothing? {
        return;
      }
    }
    return Nothing;
  }

  function FindPhrase(st: Step): string { "find xpath '" + Locator(st) + "'" }
  function DisplayedPhrase(st: Step): string { "xpath '" + Locator(st) + "' is displayed" }
  function HandlePhrase(st: Step): string { "handle xpath '" + Locator(st) + "'" }

  /** The context phrases a poll wraps a step's errors in. */
  function Phrases(st: Step): seq<string> {
    [FindPhrase(st), DisplayedPhrase(st), HandlePhrase(st)]
  }

  /** An error a poll wraps with the phrase of one of the given steps. */
  predicate StepError(e: Error, steps: set<Step>) {
    e.Wrapped? && exists st :: st in steps && e.context in Phrases(st)
  }

  /** The errors that end the step loop: cancellation, the driver's
      timeout, or a step's error. */
  predicate FlowError(e: Error, steps: set<Step>) {
    e == Cancelled || e == Timeout || StepError(e, steps)
  }

  lemma FlowErrorWidens(e: Error, a: set<Step>, b: set<Step>)
    requires a <= b && FlowError(e, a)
    ensures FlowError(e, b)
  {
    if StepError(e, a) {
      var st :| st in a && e.context in Phrases(st);
      assert st in b;
    }
  }

  /** The wait condition answers false on a screen: the context is not done
      and every pending step's elements are found and hidden. */
  predicate Idle(screen: Screen, pending: set<Step>) {
    !screen.cancelled && forall st :: st in pending ==> Quiet(screen, st)
  }

  /** driver.Wait: evaluate the condition until it handles a step or fails;
      running out of screens is the driver's own timeout. `k` is the number
      of screens the wait evaluated: all but the last were idle, and the
      last one displayed the handled step. */
  method WaitFor(table: StepTable, b: Browser, cred: Credential) returns (p: PollResult, ghost k: nat)
    modifies table, b
    ensures !p.Nothing?
    ensures p.Handled? ==> p.step in old(table.pending) && table.pending == old(table.pending) - {p.step}
    ensures p.Handled? ==> table.complete == (old(table.complete) || p.step == ConversationsList)
    ensures p.Handled? ==> b.actions == old(b.actions) + Handle(cred, b.code, p.step, None).actions
    ensures !p.Handled? ==> table.pending == old(table.pending) && table.complete == old(table.complete)
    ensures old(b.actions) <= b.actions
    ensures p.Broken? ==> FlowError(p.error, old(table.pending))
    ensures k <= |old(b.screens)| && b.screens == old(b.screens)[k..]
    ensures p == Broken(Timeout) ==>
              k == |old(b.screens)| && forall j :: 0 <= j < k ==> Idle(old(b.screens)[j], old(table.pending))
    ensures p != Broken(Timeout) ==>
              0 < k && forall j :: 0 <= j < k - 1 ==> Idle(old(b.screens)[j], old(table.pending))
    ensures p.Handled? ==> Displayed(old(b.screens)[k - 1], p.step)
    ensures p.Broken? && p != Broken(Timeout) ==> Halts(cred, b.code, old(b.screens)[k - 1], old(table.pending))
  {
    k := 0;
    while true
      invariant table.pending == old(table.pending) && table.complete == old(table.complete)
      invariant b.actions == old(b.actions)
      invariant k <= |old(b.screens)| && b.screens == old(b.screens)[k..]
      invariant forall j :: 0 <= j < k ==> Idle(old(b.screens)[j], old(table.pending))
      decreases |b.screens|
    {
      if b.screens == [] {
        return Broken(Timeout), k;
      }
      var screen := b.Observe();
      k := k + 1;
      p := Poll(table, b, cred, screen);
      if !p.Nothing? {
        return;
      }
    }
  }

  predicate Distinct(s: seq<Step>) {
    forall i, j :: 0 <= i < j < |s| ==> s[i] != s[j]
  }

  /** A run of distinct steps is no longer than the table. */
  lemma {:induction false} DistinctBounded(s: seq<Step>, universe: set<Step>)
    requires Distinct(s) && forall i :: 0 <= i < |s| ==> s[i] in universe
    ensures |s| <= |universe|
    decreases |s|
  {
    if s != [] {
      var last := s[|s| - 1];
      var init := s[..|s| - 1];
      assert forall i :: 0 <= i < |init| ==> init[i] != last;
      DistinctBounded(init, universe - {last});
    }
  }

  /** Steps handled in order: distinct, all from the table, and the
      conversations list, if there, last. */
  predicate Run(handled: seq<Step>) {
    Distinct(handled) && (forall i :: 0 <= i < |handled| ==> handled[i] in AllSteps) &&
    (forall i :: 0 <= i < |handled| - 1 ==> handled[i] != ConversationsList)
  }

  /** The steps still in the table after a run. */
  function Remaining(handled: seq<Step>): set<Step> {
    if handled == [] then AllSteps else Remaining(handled[..|handled| - 1]) - {handled[|handled| - 1]}
  }

  /** A step still in the table belongs to it and was not handled yet. */
  lemma {:induction false} RemainingUnhandled(handled: seq<Step>, st: Step)
    requires st in Remaining(handled)
    ensures st in AllSteps && st !in handled
    decreases |handled|
  {
    if handled != [] {
      var init := handled[..|handled| - 1];
      RemainingUnhandled(init, st);
      assert handled == init + [handled[|handled| - 1]];
    }
  }

  /** The table never holds more than it started with. */
  lemma {:induction false} RemainingWithin(handled: seq<Step>)
    ensures Remaining(handled) <= AllSteps
    decreases |handled|
  {
    if handled != [] {
      RemainingWithin(handled[..|handled| - 1]);
    }
  }

  /** Handling one more pending step, while the conversations list is still
      pending, extends the run, shrinks the table by that step and appends
      the step's actions. */
  lemma Extend(cred: Credential, code: Option<string>, handled: seq<Step>, st: Step)
    requires Run(handled) && ConversationsList !in handled && st in Remaining(handled)
    ensures Run(handled + [st])
    ensures Remaining(handled + [st]) == Remaining(handled) - {st}
    ensures Performed(cred, code, handled + [st]) == Performed(cred, code, handled) + Handle(cred, code, st, None).actions
    ensures ConversationsList in handled + [st] <==> st == ConversationsList
  {
    RemainingUnhandled(handled, st);
    assert (handled + [st])[..|handled|] == handled;
  }

  /** The number of screens a trace has evaluated: one past the screen its
      last step was handled at. */
  function Start(at: seq<nat>): nat {
    if at == [] then 0 else at[|at| - 1] + 1
  }

  /** The screens a run was handled at: the i-th handled step was displayed
      on screen at[i], and every screen evaluated after at[i - 1] and before
      at[i] was idle for the steps then still pending. */
  ghost predicate Trace(screens: seq<Screen>, handled: seq<Step>, at: seq<nat>)
    decreases |handled|
  {
    |at| == |handled| &&
    (handled != [] ==>
       var n := |handled| - 1;
       Trace(screens, handled[..n], at[..n]) &&
       Start(at[..n]) <= at[n] < |screens| &&
       Displayed(screens[at[n]], handled[n]) &&
       forall j :: Start(at[..n]) <= j < at[n] ==> Idle(screens[j], Remaining(handled[..n])))
  }

  /** A wait over the screens left after a trace, which evaluated k of them
      and handled `st` at the last, extends the trace by that step. */
  lemma TraceExtend(screens: seq<Screen>, handled: seq<Step>, at: seq<nat>, rest: seq<Screen>, k: nat, st: Step)
      returns (at': seq<nat>)
    requires Trace(screens, handled, at) && Start(at) <= |screens| && rest == screens[Start(at)..]
    requires 0 < k <= |rest| && Displayed(rest[k - 1], st)
    requires forall j :: 0 <= j < k - 1 ==> Idle(rest[j], Remaining(handled))
    ensures at' == at + [Start(at) + k - 1] && Trace(screens, handled + [st], at')
    ensures Start(at') <= |screens| && rest[k..] == screens[Start(at')..]
  {
    var c := Start(at);
    at' := at + [c + k - 1];
    assert (handled + [st])[..|handled|] == handled;
    assert at'[..|at|] == at;
    forall j | c <= j < c + k - 1
      ensures Idle(screens[j], Remaining(handled))
    {
      assert screens[j] == rest[j - c];
    }
    assert screens[c + k - 1] == rest[k - 1];
  }

  /** What the step loop keeps: the table holds the steps not yet handled,
      `complete` says whether the conversations list was handled, the run
      was handled at the screens `at`, and the driver is left with the
      screens after them. */
  ghost predicate Looping(screens: seq<Screen>, handled: seq<Step>, at: seq<nat>, pending: set<Step>, complete: bool, left: seq<Screen>) {
    pending == Remaining(handled) && Run(handled) && (complete <==> ConversationsList in handled) &&
    Trace(screens, handled, at) && Start(at) <= |screens| && left == screens[Start(at)..]
  }

  /** One turn of the step loop: a wait that handled a pending step after
      k screens keeps what the loop keeps, and appends that step's actions. */
  lemma {:induction false} Advance(cred: Credential, code: Option<string>, screens: seq<Screen>, handled: seq<Step>, at: seq<nat>,
                                   pending: set<Step>, complete: bool, rest: seq<Screen>, k: nat, st: Step, sent: seq<Action>)
      returns (at': seq<nat>)
    requires Looping(screens, handled, at, pending, complete, rest) && !complete
    requires st in pending && 0 < k <= |rest| && Displayed(rest[k - 1], st)
    requires forall j :: 0 <= j < k - 1 ==> Idle(rest[j], pending)
    ensures Looping(screens, handled + [st], at', pending - {st}, complete || st == ConversationsList, rest[k..])
    ensures |pending - {st}| < |pending|
    ensures sent + Performed(cred, code, handled) + Handle(cred, code, st, None).actions == sent + Performed(cred, code, handled + [st])
  {
    Extend(cred, code, handled, st);
    at' := TraceExtend(screens, handled, at, rest, k, st);
  }

  /** How the screens after a trace end the step loop with an error: those
      before `stop` were idle for the steps still pending, and `stop` is
      past the last screen (the driver's timeout) or a screen on which the
      wait condition fails. */
  ghost predicate Stopped(cred: Credential, code: Option<string>, screens: seq<Screen>, handled: seq<Step>, at: seq<nat>, stop: nat) {
    Start(at) <= stop <= |screens| &&
    (forall j :: Start(at) <= j < stop ==> Idle(screens[j], Remaining(handled))) &&
    (stop == |screens| || Halts(cred, code, screens[stop], Remaining(handled)))
  }

  /** Screens idle in the suffix from c are idle at the shifted positions. */
  lemma IdleShift(screens: seq<Screen>, c: nat, rest: seq<Screen>, n: int, pending: set<Step>)
    requires c <= |screens| && rest == screens[c..] && n <= |rest|
    requires forall j :: 0 <= j < n ==> Idle(rest[j], pending)
    ensures forall j :: c <= j < c + n ==> Idle(screens[j], pending)
  {
    forall j | c <= j < c + n
      ensures Idle(screens[j], pending)
    {
      assert screens[j] == rest[j - c];
    }
  }

  /** A wait over the screens left after a trace that evaluated k of them
      and failed with `e` stops the loop at the last one it evaluated, or
      past the last screen on a timeout. */
  lemma WaitStops(cred: Credential, code: Option<string>, screens: seq<Screen>, handled: seq<Step>, at: seq<nat>,
                  rest: seq<Screen>, k: nat, e: Error)
      returns (stop: nat)
    requires Start(at) <= |screens| && rest == screens[Start(at)..] && k <= |rest|
    requires FlowError(e, Remaining(handled))
    requires forall j :: 0 <= j < k - 1 ==> Idle(rest[j], Remaining(handled))
    requires e == Timeout ==> k == |rest| && forall j :: 0 <= j < k ==> Idle(rest[j], Remaining(handled))
    requires e != Timeout ==> 0 < k && Halts(cred, code, rest[k - 1], Remaining(handled))
    ensures Stopped(cred, code, screens, handled, at, stop) && (e == Timeout <==> stop == |screens|)
    ensures FlowError(e, AllSteps)
  {
    RemainingWithin(handled);
    FlowErrorWidens(e, Remaining(handled), AllSteps);
    var c := Start(at);
    if e == Timeout {
      stop := |screens|;
      IdleShift(screens, c, rest, k, Remaining(handled));
    } else {
      stop := c + k - 1;
      IdleShift(screens, c, rest, k - 1, Remaining(handled));
      assert screens[stop] == rest[k - 1];
    }
  }

  /** One turn of the `for !complete` loop: one driver.Wait after the run
      `handled`. A handled step extends the run and keeps what the loop
      keeps; an error ends the loop at the screen it stopped at. */
  method Turn(table: StepTable, b: Browser, cred: Credential, ghost screens: seq<Screen>, ghost base: seq<Action>,
              ghost handled: seq<Step>, ghost at: seq<nat>)
      returns (failure: Option<Error>, ghost handled': seq<Step>, ghost at': seq<nat>, ghost stop: nat)
    requires Looping(screens, handled, at, table.pending, table.complete, b.screens) && !table.complete
    requires b.actions == base + Performed(cred, b.code, handled)
    modifies table, b
    ensures failure.None? ==> Looping(screens, handled', at', table.pending, table.complete, b.screens)
    ensures failure.None? ==> b.actions == base + Performed(cred, b.code, handled') && |table.pending| < |old(table.pending)|
    ensures failure.Some? ==> handled' == handled && at' == at && old(b.actions) <= b.actions
    ensures failure.Some? ==> Stopped(cred, b.code, screens, handled, at, stop) && (failure.value == Timeout <==> stop == |screens|)
    ensures failure.Some? ==> FlowError(failure.value, AllSteps)
  {
    handled', at', stop := handled, at, 0;
    ghost var rest, pending := b.screens, table.pending;
    var p, k := WaitFor(table, b, cred);
    if p.Broken? {
      stop := WaitStops(cred, b.code, screens, handled, at, rest, k, p.error);
      return Some(p.error), handled', at', stop;
    }
    at' := Advance(cred, b.code, screens, handled, at, pending, false, rest, k, p.step, base);
    handled' := handled + [p.step];
    failure := None;
  }

  /** The `for !complete` loop: wait for and handle steps until the
      conversations list was handled, or an error ends the flow. `at` holds
      the screen each handled step was displayed on. */
  method HandleSteps(b: Browser, cred: Credential)
      returns (failure: Option<Error>, ghost handled: seq<Step>, ghost at: seq<nat>, ghost stop: nat)
    modifies b
    ensures Run(handled) && Trace(old(b.screens), handled, at)
    ensures failure.Some? ==> Stopped(cred, b.code, old(b.screens), handled, at, stop)
    ensures failure.Some? ==> (failure.value == Timeout <==> stop == |old(b.screens)|)
    ensures failure.None? <==> ConversationsList in handled
    ensures failure.None? ==> |handled| > 0 && handled[|handled| - 1] == ConversationsList
    ensures old(b.actions) <= b.actions
    ensures failure.None? ==> b.actions == old(b.actions) + Performed(cred, b.code, handled)
    ensures failure.Some? ==> FlowError(failure.value, AllSteps)
  {
    failure, handled, at, stop := None, [], [], 0;
    var table := new StepTable();
    while !table.complete
      invariant Looping(old(b.screens), handled, at, table.pending, table.complete, b.screens)
      invariant b.actions == old(b.actions) + Performed(cred, b.code, handled) && failure.None?
      decreases |table.pending|
    {
      failure, handled, at, stop := Turn(table, b, cred, old(b.screens), old(b.actions), handled, at);
      if failure.Some? {
        return;
      }
    }
  }

  /** A screen on which the one element of `st` is displayed and nothing
      else is found. */
  function Showing(st: Step): Screen {
    Screen(false, map[st := Success([Shown])], None)
  }

  const RevealOrder: seq<Step> := [PhoneInput, OtpInput, ConversationsList]

  /** A driver that reveals the phone input, the OTP input and the
      conversations list on successive evaluations. */
  function Revealing(): seq<Screen> {
    [Showing(PhoneInput), Showing(OtpInput), Showing(ConversationsList)]
  }

  /** Only the revealed step is displayed on a revealing screen, so the wait
      condition cannot answer false on it while that step is pending. */
  lemma ShowingOnly(st: Step, x: Step, pending: set<Step>)
    requires st in pending
    ensures Displayed(Showing(st), x) <==> x == st
    ensures !Idle(Showing(st), pending)
  {
    assert Elements(Showing(st), st).value[0] == Shown;
  }

  /** Before the n-th reveal, the n-th step of the order is still pending. */
  lemma RevealPending(n: nat)
    requires n < 3
    ensures RevealOrder[n] in Remaining(RevealOrder[..n])
  {
    assert RevealOrder[..1] == [PhoneInput] && RevealOrder[..2] == [PhoneInput, OtpInput];
    assert [PhoneInput][..0] == [] && [PhoneInput, OtpInput][..1] == [PhoneInput];
  }

  /** Over the revealing screens, every trace handles a prefix of the reveal
      order, each step on the screen that reveals it. */
  lemma {:induction false} RevealedPrefix(handled: seq<Step>, at: seq<nat>)
    requires Trace(Revealing(), handled, at)
    ensures |handled| <= 3 && handled == RevealOrder[..|handled|]
    ensures forall i :: 0 <= i < |at| ==> at[i] == i
    decreases |handled|
  {
    if handled != [] {
      var n := |handled| - 1;
      RevealedPrefix(handled[..n], at[..n]);
      assert Start(at[..n]) == n;
      assert Revealing()[n] == Showing(RevealOrder[n]);
      RevealPending(n);
      ShowingOnly(RevealOrder[n], handled[n], Remaining(handled[..n]));
      if at[n] != n {
        assert false;
      }
      assert handled == handled[..n] + [handled[n]];
    }
  }

  /** The browser flow over the revealing screens: a run that reached the
      conversations list handled the phone input, the OTP input and the
      conversations list, in that order, each once, on the screen that
      revealed it, and sent exactly the phone with Enter, the code request
      and the code. */
  lemma RevealedInTurn(cred: Credential, code: string, handled: seq<Step>, at: seq<nat>)
    requires Trace(Revealing(), handled, at) && ConversationsList in handled
    ensures handled == RevealOrder && at == [0, 1, 2]
    ensures Performed(cred, Some(code), handled) == [Typed(PhoneInput, cred.phone + EnterKey), AskedCode, Typed(OtpInput, code)]
  {
    RevealedPrefix(handled, at);
    if |handled| < 3 {
      assert false;
    }
    var c := Some(code);
    assert RevealOrder[..2] == [PhoneInput, OtpInput] && [PhoneInput, OtpInput][..1] == [PhoneInput] && [PhoneInput][..0] == [];
    assert Performed(cred, c, [PhoneInput]) == [Typed(PhoneInput, cred.phone + EnterKey)];
    assert Performed(cred, c, [PhoneInput, OtpInput]) == [Typed(PhoneInput, cred.phone + EnterKey), AskedCode, Typed(OtpInput, code)];
  }

  /** SeleniumAuthFlow.authorize: start the driver, handle the steps, then
      read the api_session cookie. `handled` is the order in which steps
      were handled, `at` the screen each was displayed on, and `stop` the
      screen a failed step loop stopped at. */
  method SeleniumAuthorize(b: Browser, cred: Credential)
      returns (r: Result<string, Error>, ghost handled: seq<Step>, ghost at: seq<nat>, ghost stop: nat)
    modifies b
    ensures LaunchFailure(b.launch).Some? ==>
              r == Failure(LaunchFailure(b.launch).value) && handled == [] && b.actions == old(b.actions)
    ensures r.Success? ==> LaunchFailure(b.launch).None? && b.cookie == Some(r.value)
    ensures r.Success? ==> |handled| > 0 && handled[|handled| - 1] == ConversationsList
    ensures Run(handled) && |handled| <= 5 && Trace(old(b.screens), handled, at)
    ensures old(b.actions) <= b.actions
    ensures r.Success? ==> b.actions == old(b.actions) + Performed(cred, b.code, handled)
    ensures r.Failure? && LaunchFailure(b.launch).None? && b.cookie.Some? ==> FlowError(r.error, AllSteps)
    ensures LaunchFailure(b.launch).None? && ConversationsList !in handled ==>
              r.Failure? && Stopped(cred, b.code, old(b.screens), handled, at, stop)
    ensures LaunchFailure(b.launch).None? && ConversationsList in handled ==>
              r == if b.cookie.Some? then Success(b.cookie.value)
                   else Failure(Wrapped("session cookie not found", Foreign("no api_session cookie")))
  {
    handled, at, stop := [], [], 0;
    var launchFailure := LaunchFailure(b.launch);
    if launchFailure.Some? {
      return Failure(launchFailure.value), handled, at, stop;
    }
    var failure;
    failure, handled, at, stop := HandleSteps(b, cred);
    DistinctBounded(handled, AllSteps);
    if failure.Some? {
      return Failure(failure.value), handled, at, stop;
    }
    if b.cookie.None? {
      return Failure(Wrapped("session cookie not found", Foreign("no api_session cookie"))), handled, at, stop;
    }
    r := Success(b.cookie.value);
  }

  /** No pending step fails on a revealing screen while the confirmation
      code is at hand: nothing is cancelled, found in error or of unknown
      visibility, and the one handler that runs is not refused. */
  lemma ShowingNeverHalts(cred: Credential, code: string, st: Step, pending: set<Step>)
    ensures !Halts(cred, Some(code), Showing(st), pending)
  {
    forall x | x in pending
      ensures !Faulty(cred, Some(code), Showing(st), x)
    {
      var vs := Elements(Showing(st), x).value;
      assert forall i :: 0 <= i < |vs| ==> vs[i] == Shown;
    }
  }

  /** Over the revealing screens the step loop cannot stop before the
      conversations list: each screen shows a step still pending, and its
      handler succeeds. */
  lemma {:induction false} RevealedCompletes(cred: Credential, code: string, handled: seq<Step>, at: seq<nat>, stop: nat)
    requires Trace(Revealing(), handled, at)
    requires ConversationsList !in handled ==> Stopped(cred, Some(code), Revealing(), handled, at, stop)
    ensures ConversationsList in handled
  {
    RevealedPrefix(handled, at);
    if ConversationsList !in handled {
      var n := |handled|;
      assert n < 3 && Start(at) == n;
      assert Revealing()[n] == Showing(RevealOrder[n]);
      RevealPending(n);
      ShowingOnly(RevealOrder[n], RevealOrder[n], Remaining(handled));
      ShowingNeverHalts(cred, code, RevealOrder[n], Remaining(handled));
      if stop != n {
        assert false;
      }
    }
  }

  /** The browser flow against a driver that reveals the phone input, the
      OTP input and the conversations list on successive evaluations, with
      the code and the cookie at hand: the flow sends exactly the phone with
      Enter, the code request and the code, in that order, and returns the
      cookie. */
  method RevealingFlow(cred: Credential, code: string, token: string) returns (r: Result<string, Error>, sent: seq<Action>)
    ensures r == Success(token)
    ensures sent == [Typed(PhoneInput, cred.phone + EnterKey), AskedCode, Typed(OtpInput, code)]
  {
    var b := new Browser(Launch(None, None, None), Some(code), Some(token), Revealing());
    ghost var handled, at, stop;
    r, handled, at, stop := SeleniumAuthorize(b, cred);
    RevealedCompletes(cred, code, handled, at, stop);
    RevealedInTurn(cred, code, handled, at);
    sent := b.actions;
  }
}
