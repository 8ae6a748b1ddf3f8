/** The login gate of core/middleware.py: anonymous requests may only reach
    the public prefixes; everything else is sent to the login page. */
module LoginGate {
  import opened Text
  import opened Web

  /** The public prefixes, matched with `startswith`. */
  const PublicPrefixes: seq<string> := ["/accounts/", "/admin/", "/static/", "/media/"]

  /** `settings.LOGIN_URL` is the route name `account_login`, which the
      authentication package mounted under /accounts/ resolves to this path. */
  const LoginUrl: string := "/accounts/login/"

  predicate IsPublic(path: string) {
    AnyPrefix(path, PublicPrefixes)
  }

  /** `LoginRequiredMiddleware.__call__`: `Continue` means the downstream
      response is returned as it is. */
  function LoginRequired(authenticated: bool, path: string): (s: Step)
    ensures s.Respond? <==> !authenticated && !IsPublic(path)
    ensures s.Respond? ==> s.response == Redirect(LoginUrl)
    ensures authenticated ==> s == Continue
  {
    if !authenticated && !IsPublic(path) then Respond(Redirect(LoginUrl)) else Continue
  }

  /** A public path passes whether or not the user is logged in. */
  lemma PublicPathPasses(authenticated: bool, path: string, p: string)
    requires p in PublicPrefixes && p <= path
    ensures LoginRequired(authenticated, path) == Continue
  {
    var i :| 0 <= i < |PublicPrefixes| && PublicPrefixes[i] == p;
  }

  /** The match is on the prefix with its trailing slash: "/admin" is not public,
      so an anonymous request for it is sent to the login page. */
  lemma AdminWithoutSlashIsNotPublic()
    ensures !IsPublic("/admin")
    ensures LoginRequired(false, "/admin") == Respond(Redirect(LoginUrl))
  {
    assert !("/admin/" <= "/admin");
  }

  /** The company pages (all under /companies/) are never public, so an
      anonymous request for one is redirected to the login page before any
      tenant binding or view runs. */
  lemma CompanyPagesNeedLogin(path: string)
    requires "/companies/" <= path
    ensures !IsPublic(path)
    ensures LoginRequired(false, path) == Respond(Redirect(LoginUrl))
  {
    forall i | 0 <= i < |PublicPrefixes|
      ensures !(PublicPrefixes[i] <= path)
    {
      assert PublicPrefixes[i][1] != path[1];
    }
  }
}
