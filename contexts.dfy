/** The part of Go's context.Context the engines depend on. */
module Contexts {
  import opened Wrappers

  /** cancelled: the caller's context is already done;
      retries: the attempt counter that retry.do threads through derived contexts;
      locked: the client's reentrant lock is held by this call chain;
      session: the value withSession attached (nil when absent). */
  datatype Context = Context(cancelled: bool, retries: nat, locked: bool, session: Option<string>)

  /** context.Background(): live, no retries spent, no lock, no values. */
  const Background := Context(false, 0, false, None)

  /** withSession: a derived context carrying the session; nothing else changes. */
  function WithSession(ctx: Context, session: Option<string>): (r: Context)
    ensures GetSession(r) == session
    ensures r.cancelled == ctx.cancelled && r.retries == ctx.retries && r.locked == ctx.locked
  {
    ctx.(session := session)
  }

  /** getSession: the attached session, or nil on a context without one. */
  function GetSession(ctx: Context): (r: Option<string>)
    ensures ctx.session.None? ==> r.None?
  {
    ctx.session
  }
}
