/** Post-login redirect-target resolution of `TemplateView.redirect_to_login`:
    the "next" target handed to the framework's login-redirect builder. URL
    splitting is done by Python's `urlparse`; here the
    scheme and network location of each URL arrive already split. */
module LoginRedirect {
  import opened Values

  /** The first two components of a split URL; an empty string means the
      component is absent (a relative URL has both empty). */
  datatype Origin = Origin(scheme: string, netloc: string)

  /** The parts of the current request that the resolution reads. */
  datatype RequestUrl = RequestUrl(
    fullPath: string,         // `request.get_full_path()`: path and query string
    absoluteUri: string,      // `request.build_absolute_uri()`
    absoluteOrigin: Origin    // the scheme and netloc of `absoluteUri`
  )

  /** The login URL "agrees" with the current URL on a component when the
      login URL leaves it empty or gives the same one. */
  predicate Agrees(login: string, current: string)
  {
    login == "" || login == current
  }

  /** Same scheme and same network location, as far as the login URL says. */
  predicate SameOrigin(login: Origin, current: Origin)
  {
    Agrees(login.scheme, current.scheme) && Agrees(login.netloc, current.netloc)
  }

  /** The target to come back to after logging in: an explicit `path` verbatim;
      otherwise the relative full path when the login page is on the same
      origin, else the absolute URI. */
  function RedirectTarget(path: Option<string>, request: RequestUrl, login: Origin): (target: string)
    ensures path.Some? ==> target == path.value
    ensures path.None? && SameOrigin(login, request.absoluteOrigin) ==> target == request.fullPath
    ensures path.None? && !SameOrigin(login, request.absoluteOrigin) ==> target == request.absoluteUri
  {
    match path
    case Some(p) => p
    case None =>
      var candidate := request.absoluteUri;
      var current := request.absoluteOrigin;
      if SameOrigin(login, current) then request.fullPath
      else candidate
  }

  /** A relative login URL (no scheme, no netloc, such as `/accounts/login/`)
      always yields the relative full path. */
  lemma RelativeLoginKeepsPathRelative(request: RequestUrl, loginPath: Origin)
    requires loginPath.scheme == "" && loginPath.netloc == ""
    ensures RedirectTarget(None, request, loginPath) == request.fullPath
  {
  }

  /** A login page on exactly the request's origin yields the relative full path. */
  lemma SameHostLoginKeepsPathRelative(request: RequestUrl)
    ensures RedirectTarget(None, request, request.absoluteOrigin) == request.fullPath
  {
  }

  /** A login page that names a different scheme, or a different network
      location, yields the absolute URI. */
  lemma ForeignLoginKeepsUriAbsolute(request: RequestUrl, login: Origin)
    requires (login.scheme != "" && login.scheme != request.absoluteOrigin.scheme)
          || (login.netloc != "" && login.netloc != request.absoluteOrigin.netloc)
    ensures RedirectTarget(None, request, login) == request.absoluteUri
  {
  }

  /** Two examples: a login page on `https://example.com` sends
      `https://example.com/dashboard` back to `/dashboard`; one on
      `https://auth.example.com` keeps `https://app.example.com/dashboard`
      absolute. An explicit path wins over both. */
  lemma RedirectExamples()
    ensures RedirectTarget(None, RequestUrl("/dashboard", "https://example.com/dashboard", Origin("https", "example.com")),
                           Origin("https", "example.com")) == "/dashboard"
    ensures RedirectTarget(None, RequestUrl("/dashboard", "https://app.example.com/dashboard", Origin("https", "app.example.com")),
                           Origin("https", "auth.example.com")) == "https://app.example.com/dashboard"
    ensures RedirectTarget(Some("/elsewhere"), RequestUrl("/dashboard", "https://app.example.com/dashboard", Origin("https", "app.example.com")),
                           Origin("https", "auth.example.com")) == "/elsewhere"
  {
  }
}
