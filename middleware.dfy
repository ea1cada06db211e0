/** The route guard (src/app/middleware.js): which requests are sent to the
    login page, which are sent home, and which pass, and the paths the
    guard is installed on. */
module Middleware {

  const LoginPath := "/login"
  const HomePath := "/"

  /** What the guard answers a request with. */
  datatype Decision = Next | Redirect(target: string)

  /** `middleware`: the decision on whether a session exists and the
      requested path. */
  function Decide(hasSession: bool, path: string): (d: Decision)
    ensures !hasSession && path != LoginPath ==> d == Redirect(LoginPath)
    ensures hasSession && path == LoginPath ==> d == Redirect(HomePath)
    ensures d == Next <==> (hasSession <==> path != LoginPath)
  {
    if !hasSession && path != LoginPath then Redirect(LoginPath)
    else if hasSession && path == LoginPath then Redirect(HomePath)
    else Next
  }

  /** Following a redirect never leads to a second one: with the session
      unchanged, the guard lets the redirect's target through. */
  lemma RedirectSettles(hasSession: bool, path: string)
    ensures Decide(hasSession, path).Redirect? ==> Decide(hasSession, Decide(hasSession, path).target) == Next
  {
  }

  /** A signed-in user is never sent to the login page, and a visitor
      without a session is never sent home. */
  lemma RedirectMatchesSession(hasSession: bool, path: string)
    ensures Decide(hasSession, path).Redirect? ==>
      (Decide(hasSession, path).target == LoginPath <==> !hasSession)
  {
  }

  /** The `matcher`: the only paths the guard runs on. */
  const Matcher: seq<string> := ["/", "/transactions", "/admin", "/login"]

  /** The answer a request gets: the guard's decision on a matched path,
      and passing through on any other. */
  function Route(hasSession: bool, path: string): (d: Decision)
    ensures path !in Matcher ==> d == Next
    ensures path in Matcher ==> d == Decide(hasSession, path)
  {
    if path in Matcher then Decide(hasSession, path) else Next
  }

  /** The reports and profile pages are outside the matcher, so a visitor
      without a session reaches them, while the dashboard sends the same
      visitor to the login page. */
  lemma UnguardedPages()
    ensures Route(false, "/reports") == Next
    ensures Route(false, "/profile") == Next
    ensures Route(false, "/") == Redirect(LoginPath)
  {
    assert "/reports" != Matcher[0] && "/reports" != Matcher[1] && "/reports" != Matcher[2] && "/reports" != Matcher[3];
    assert "/profile" != Matcher[0] && "/profile" != Matcher[1] && "/profile" != Matcher[2] && "/profile" != Matcher[3];
    assert "/" == Matcher[0];
  }
}
