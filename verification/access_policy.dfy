/**
  The request middleware's route access policy: a total decision from a request
  path and the caller's identity (as reported by the authentication provider) to
  "let the request through" or "redirect it".
 */
module AccessPolicy {
  import opened Options

  type Path = string

  const HomePage: Path := "/"
  const SignInPage: Path := "/sign-in"

  /** Paths served without any identity check, matched by exact equality. */
  const PublicRoutes: seq<Path> := [HomePage, SignInPage]

  /** Every path having this as a raw string prefix is admin-only. */
  const AdminPrefix: Path := "/admin"

  /**
    What the authentication provider reports for a request: the user id (null
    for an anonymous caller) and the `isAdmin` flag from the claims' public
    metadata, absent when the claims or the metadata carry none.
   */
  datatype Identity = Identity(userId: Option<string>, isAdmin: Option<bool>)

  datatype Decision = Allow | Redirect(target: Path)

  /** JavaScript truthiness of the user id: null and the empty string are falsy. */
  predicate SignedIn(who: Identity) {
    who.userId.Some? && who.userId.value != ""
  }

  /** JavaScript truthiness of the admin flag: only a present `true` grants access. */
  predicate Truthy(flag: Option<bool>) {
    flag == Some(true)
  }

  predicate IsPublic(path: Path) {
    path in PublicRoutes
  }

  predicate IsGated(path: Path) {
    AdminPrefix <= path
  }

  /**
    The middleware. Rules in order, first match wins: public routes pass;
    gated paths need a signed-in caller (else to the sign-in page) whose admin
    flag is truthy (else home); every other path passes.
   */
  function Decide(path: Path, who: Identity): (d: Decision)
    ensures d == Allow <==> IsPublic(path) || !IsGated(path) || (SignedIn(who) && Truthy(who.isAdmin))
    ensures d == Redirect(SignInPage) <==> !IsPublic(path) && IsGated(path) && !SignedIn(who)
    ensures d == Redirect(HomePage) <==> !IsPublic(path) && IsGated(path) && SignedIn(who) && !Truthy(who.isAdmin)
    ensures d.Redirect? ==> d.target == SignInPage || d.target == HomePage
  {
    if IsPublic(path) then Allow
    else if IsGated(path) then
      if !SignedIn(who) then Redirect(SignInPage)
      else if !Truthy(who.isAdmin) then Redirect(HomePage)
      else Allow
    else Allow
  }

  /** The two public routes pass whatever the identity. */
  lemma PublicRoutesAllowed(who: Identity)
    ensures Decide("/", who) == Allow
    ensures Decide("/sign-in", who) == Allow
  {
  }

  /**
    Public matching is exact: a child of the sign-in page is not public, and
    since it is not under the admin prefix it still passes.
   */
  lemma SignInChildNotPublic(who: Identity)
    ensures !IsPublic("/sign-in/x")
    ensures Decide("/sign-in/x", who) == Allow
  {
    assert "/sign-in/x"[1] != AdminPrefix[1];
  }

  /** No public route lies under the admin prefix, so the order of the first two rules never matters. */
  lemma PublicRoutesNeverGated(path: Path)
    ensures IsPublic(path) ==> !IsGated(path)
  {
    if path == HomePage {
      assert |path| < |AdminPrefix|;
    } else if path == SignInPage {
      assert path[1] != AdminPrefix[1];
    }
  }

  /** An anonymous caller on a gated path is sent to sign in. */
  lemma AnonymousGatedToSignIn(path: Path, admin: Option<bool>)
    requires IsGated(path)
    ensures Decide(path, Identity(None, admin)) == Redirect(SignInPage)
  {
    PublicRoutesNeverGated(path);
  }

  /** A signed-in caller whose flag is absent or false is sent home; absent and false agree. */
  lemma NonAdminGatedToHome(path: Path, uid: string)
    requires IsGated(path) && uid != ""
    ensures Decide(path, Identity(Some(uid), None)) == Redirect(HomePage)
    ensures Decide(path, Identity(Some(uid), Some(false))) == Redirect(HomePage)
  {
    PublicRoutesNeverGated(path);
  }

  /** Absent and false admin flags are indistinguishable on every path. */
  lemma AbsentFlagIsFalse(path: Path, uid: Option<string>)
    ensures Decide(path, Identity(uid, None)) == Decide(path, Identity(uid, Some(false)))
  {
  }

  /** A signed-in admin passes on every gated path. */
  lemma AdminGatedAllowed(path: Path, uid: string)
    requires IsGated(path) && uid != ""
    ensures Decide(path, Identity(Some(uid), Some(true))) == Allow
  {
  }

  /** The gate is a raw string prefix: paths that merely begin with "/admin" are gated like real admin pages. */
  lemma RawPrefixGate(who: Identity)
    ensures Decide("/administrator", who) == Decide("/admin/orders", who)
    ensures Decide("/admin-x", who) == Decide("/admin/orders", who)
    ensures Decide("/admin", who) == Decide("/admin/orders", who)
  {
    assert IsGated("/administrator") && IsGated("/admin-x") && IsGated("/admin/orders");
  }

  /** On a gated path the caller passes exactly when signed in with a truthy admin flag. */
  lemma GatedPolicy(path: Path, who: Identity)
    requires IsGated(path)
    ensures Decide(path, who) == Allow <==> SignedIn(who) && Truthy(who.isAdmin)
  {
    PublicRoutesNeverGated(path);
  }

  /** A path that is neither public nor gated passes whatever the identity. */
  lemma UngatedAllowed(path: Path, who: Identity)
    requires !IsPublic(path) && !IsGated(path)
    ensures Decide(path, who) == Allow
  {
  }

  /** Two worked scenarios. */
  lemma Scenarios()
    ensures Decide("/admin/orders", Identity(None, None)) == Redirect("/sign-in")
    ensures Decide("/admin", Identity(Some("user_1"), Some(false))) == Redirect("/")
  {
    assert IsGated("/admin/orders") && IsGated("/admin");
  }
}
