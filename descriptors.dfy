/** The call descriptors of both protocols (common.go, invest.go) and the
    per-path rate-limiter table (client.go). */
module Descriptors {

  /** How much authentication a primary-protocol call needs. */
  datatype Auth = NoAuth | Check | Force

  /** The primary-protocol descriptors; each one fixes its auth level, its
      path and the result code it expects. Form fields beyond those the
      login sequence passes on are not modelled. */
  datatype Exchange =
    | NewSession                                                   // sessionIn
    | Ping                                                         // pingIn
    | PhoneSignUp(phone: string)                                   // phoneSignUpIn
    | PasswordSignUp(password: string)                             // passwordSignUpIn
    | Confirm(initialOperation: string, ticket: string, code: string)  // confirmIn
    | LevelUp                                                      // levelUpIn
    | AccountsLightIb                                              // accountsLightIbIn
    | Operations(account: string)                                  // OperationsIn
    | ShoppingReceipt(operationId: string)                         // ShoppingReceiptIn

  /** Only the anonymous session request goes without authentication; the
      data calls force a session; the login steps and the probe check for one. */
  function AuthOf(x: Exchange): (a: Auth)
    ensures a == NoAuth <==> x.NewSession?
    ensures a == Force <==> x.AccountsLightIb? || x.Operations? || x.ShoppingReceipt?
    ensures a == Check <==> x.Ping? || x.PhoneSignUp? || x.PasswordSignUp? || x.Confirm? || x.LevelUp?
  {
    match x
    case NewSession => NoAuth
    case Ping => Check
    case PhoneSignUp(_) => Check
    case PasswordSignUp(_) => Check
    case Confirm(_, _, _) => Check
    case LevelUp => Check
    case AccountsLightIb => Force
    case Operations(_) => Force
    case ShoppingReceipt(_) => Force
  }

  const ShoppingReceiptPath := "/common/v1/shopping_receipt"

  function Path(x: Exchange): (p: string)
    ensures |p| > 11 && p[..11] == "/common/v1/"
    ensures p == ShoppingReceiptPath <==> x.ShoppingReceipt?
    ensures p == "/common/v1/sign_up" <==> x.PhoneSignUp? || x.PasswordSignUp?
  {
    match x
    case NewSession => "/common/v1/session"
    case Ping => "/common/v1/ping"
    case PhoneSignUp(_) => "/common/v1/sign_up"
    case PasswordSignUp(_) => "/common/v1/sign_up"
    case Confirm(_, _, _) => "/common/v1/confirm"
    case LevelUp => "/common/v1/level_up"
    case AccountsLightIb => "/common/v1/accounts_light_ib"
    case Operations(_) => "/common/v1/operations"
    case ShoppingReceipt(_) => ShoppingReceiptPath
  }

  /** Every descriptor expects "OK" except the phone sign-up, which expects
      the provider to wait for the confirmation code. */
  function ExpectedCode(x: Exchange): (c: string)
    ensures c == "WAITING_CONFIRMATION" <==> x.PhoneSignUp?
    ensures c != "WAITING_CONFIRMATION" ==> c == "OK"
  {
    if x.PhoneSignUp? then "WAITING_CONFIRMATION" else "OK"
  }

  /** The secondary-protocol descriptors: only a path (their query fields are not modelled). */
  datatype InvestExchange =
    | OperationTypes                  // investOperationTypesIn
    | InvestAccounts(currency: string) // InvestAccountsIn
    | InvestOperations(brokerAccountId: string)  // InvestOperationsIn

  /** Every secondary-protocol path lives under the invest gateway. */
  const InvestGateway := "/invest-gw"

  function InvestPath(x: InvestExchange): (p: string)
    ensures |p| > |InvestGateway| && p[..|InvestGateway|] == InvestGateway
  {
    InvestGateway + match x
      case OperationTypes => "/ca-operations/api/v1/operations/types"
      case InvestAccounts(_) => "/invest-portfolio/portfolios/accounts"
      case InvestOperations(_) => "/ca-operations/api/v1/user/operations"
  }

  /** A sliding-window semaphore: at most `permits` calls per `seconds`. */
  datatype Window = Window(permits: nat, seconds: nat)

  /** based.Unlock (always grants) or based.Lockers (grants when every window does). */
  datatype Limiter = Unlock | Lockers(windows: seq<Window>)

  /** The table Build installs: the shopping-receipt path is limited to 25
      calls per 75 seconds and 75 calls per 11 minutes. */
  function BuiltLimiters(): (m: map<string, Limiter>)
    ensures m.Keys == {ShoppingReceiptPath}
  {
    map[ShoppingReceiptPath := Lockers([Window(25, 75), Window(75, 11 * 60)])]
  }

  /** rateLimiter: the configured limiter for a path, else the no-op one. */
  function RateLimiter(limiters: map<string, Limiter>, path: string): (l: Limiter)
    ensures path in limiters ==> l == limiters[path]
    ensures path !in limiters ==> l == Unlock
  {
    if path in limiters then limiters[path] else Unlock
  }

  /** With the built table, only the shopping-receipt call is throttled, by
      both windows; every other descriptor gets the no-op limiter. */
  lemma BuiltLimiterFor(x: Exchange)
    ensures RateLimiter(BuiltLimiters(), Path(x)) ==
      if x.ShoppingReceipt? then Lockers([Window(25, 75), Window(75, 660)]) else Unlock
  {
  }
}
