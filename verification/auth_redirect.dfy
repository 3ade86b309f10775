/**
  The client-side admin guard: once the authentication state has loaded, a
  visitor who is signed out is pushed to the sign-in page and a signed-in
  visitor without a truthy admin flag is pushed home.
 */
module AuthRedirect {
  import opened Options
  import opened AccessPolicy

  datatype Nav = NoNavigation | Push(target: Path)

  /** The effect body, run with the provider's `isLoaded`, `isSignedIn` and the user's `isAdmin` flag. */
  function Guard(isLoaded: bool, isSignedIn: bool, isAdmin: Option<bool>): (n: Nav)
    ensures !isLoaded ==> n == NoNavigation
    ensures n == Push(SignInPage) <==> isLoaded && !isSignedIn
    ensures n == Push(HomePage) <==> isLoaded && isSignedIn && !Truthy(isAdmin)
    ensures n == NoNavigation <==> !isLoaded || (isSignedIn && Truthy(isAdmin))
    ensures n.Push? ==> n.target == SignInPage || n.target == HomePage
  {
    if !isLoaded then NoNavigation
    else if !isSignedIn then Push(SignInPage)
    else if !Truthy(isAdmin) then Push(HomePage)
    else NoNavigation
  }

  /** Reads a navigation as the middleware decision it stands for. */
  function AsDecision(n: Nav): Decision {
    match n
    case NoNavigation => Allow
    case Push(target) => Redirect(target)
  }

  /**
    Once loaded, the guard agrees with the middleware on every gated path for
    the same identity: staying put is the middleware's Allow.
   */
  lemma GuardMatchesMiddleware(path: Path, who: Identity)
    requires IsGated(path)
    ensures AsDecision(Guard(true, SignedIn(who), who.isAdmin)) == Decide(path, who)
  {
    PublicRoutesNeverGated(path);
  }
}
