/** The request middleware (middleware.ts): signed-in visitors of the landing
    page are sent to the chat, and visitors without a token are kept out of
    every path that starts with `/chat`. */
module RouteGuard {

  datatype Decision = Redirect(target: string) | Next

  /** `middleware(request)`, given whether `getToken` found a token and the
      request's pathname. */
  function Decide(hasToken: bool, pathname: string): (d: Decision)
    ensures d == Redirect("/chat") <==> hasToken && pathname == "/"
    ensures d == Redirect("/") <==> !hasToken && "/chat" <= pathname
    ensures d.Redirect? ==> d.target == "/chat" || d.target == "/"
  {
    if hasToken && pathname == "/" then Redirect("/chat")
    else if !hasToken && "/chat" <= pathname then Redirect("/")
    else Next
  }

  /** The two redirect rules never both apply, and every request that neither
      rule matches passes through. */
  lemma RulesExclusive(hasToken: bool, pathname: string)
    ensures !(hasToken && pathname == "/" && !hasToken && "/chat" <= pathname)
    ensures Decide(hasToken, pathname) == Next
        <==> !(hasToken && pathname == "/") && !(!hasToken && "/chat" <= pathname)
  {
  }

  /** Following a redirect with the same token state never redirects again. */
  lemma NoRedirectLoop(hasToken: bool, pathname: string)
    ensures Decide(hasToken, pathname).Redirect?
        ==> Decide(hasToken, Decide(hasToken, pathname).target) == Next
  {
    if Decide(hasToken, pathname) == Redirect("/") {
      assert !("/chat" <= "/") by { assert |"/"| < |"/chat"|; }
    }
  }

  /** The guard is a prefix test on the raw pathname: any path that merely
      starts with `/chat`, such as `/chatroom`, is guarded as well, while a
      path with the same letters elsewhere is not. */
  lemma GuardIsPrefixTest()
    ensures Decide(false, "/chatroom") == Redirect("/")
    ensures Decide(false, "/chat/x") == Redirect("/")
    ensures Decide(false, "/Chat") == Next
    ensures Decide(false, "/") == Next
    ensures Decide(true, "/chat") == Next
  {
    assert ("/Chat")[1] != ("/chat")[1];
  }
}
