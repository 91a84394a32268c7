/** The access gate of `TemplateView.dispatch`: an ordered, short-circuiting
    decision between redirecting to the login page, refusing with a 403 and
    proceeding to the page, with its two writes to the view object. */
module Dispatch {
  import opened Values
  import opened LoginRedirect

  /** The body of the forbidden response. */
  const StaffOnlyBody: string := "Staff only!"

  /** The identity attached to a request. */
  datatype User = User(authenticated: bool, staff: bool)

  /** What dispatch reads from a request. */
  datatype Request = Request(user: User, session: Session, url: RequestUrl)

  /** How a dispatch ends: a redirect to the login page carrying the "next"
      target, a forbidden response with its body, or the framework's own
      dispatch of the page. */
  datatype Outcome =
    | RedirectToLogin(next: string)
    | Forbidden(body: string)
    | Proceed

  /** The decision dispatch takes, as a function of the view's flags before
      the call, the request, and the split login URL. */
  function Decide(loginRequired: bool, staffOnly: bool, request: Request, login: Origin): (o: Outcome)
    ensures o.RedirectToLogin? <==> (loginRequired || staffOnly) && !request.user.authenticated
    ensures o.RedirectToLogin? ==> o.next == RedirectTarget(None, request.url, login)
    ensures o.Forbidden? <==> staffOnly && request.user.authenticated && !request.user.staff
    ensures o.Forbidden? ==> o.body == "Staff only!"
    ensures o.Proceed? <==> (!loginRequired && !staffOnly) || (request.user.authenticated && (!staffOnly || request.user.staff))
  {
    var effective := loginRequired || staffOnly;
    if effective && !request.user.authenticated then
      RedirectToLogin(RedirectTarget(None, request.url, login))
    else if staffOnly && !request.user.staff then
      Forbidden(StaffOnlyBody)
    else
      Proceed
  }

  /** A view that may require login or staff status, and holds the context
      its template is rendered with. */
  class TemplateView {
    var loginRequired: bool
    const staffOnly: bool
    var context: map<string, Value>

    /** `__init__`: the flags come from the view's class; the context starts empty. */
    constructor (loginRequired: bool, staffOnly: bool)
      ensures this.loginRequired == loginRequired && this.staffOnly == staffOnly
      ensures context == map[]
    {
      this.loginRequired := loginRequired;
      this.staffOnly := staffOnly;
      context := map[];
    }

    /** `dispatch`: fold `staffOnly` into `loginRequired`, then gate the request.
        Only on `Proceed` is `context["premium"]` written, from the session. */
    method Dispatch(request: Request, login: Origin) returns (outcome: Outcome)
      modifies this`loginRequired, this`context
      ensures loginRequired == (old(loginRequired) || staffOnly)
      ensures outcome == Decide(old(loginRequired), staffOnly, request, login)
      ensures outcome.Proceed? ==> context == old(context)["premium" := SessionGet(request.session, "premium")]
      ensures !outcome.Proceed? ==> context == old(context)
      ensures outcome.Proceed? ==> "premium" in GetContextData() && GetContextData()["premium"] == SessionGet(request.session, "premium")
    {
      loginRequired := loginRequired || staffOnly;
      if loginRequired && !request.user.authenticated {
        return RedirectToLogin(RedirectTarget(None, request.url, login));
      }
      if staffOnly && !request.user.staff {
        return Forbidden(StaffOnlyBody);
      }
      var isPremium := SessionGet(request.session, "premium");
      context := context["premium" := isPremium];
      return Proceed;
    }

    /** `get_context_data`: the context the template is rendered with is the
        view's `context` field as it stands, including whatever `Dispatch`
        wrote into it. A map is a value, so the result is a snapshot: the
        sharing of one dictionary object between the view and its caller is
        not modelled. */
    function GetContextData(): (c: map<string, Value>)
      reads this
      ensures c == context
    {
      context
    }
  }

  /** Folding `staffOnly` into `loginRequired` does not change any later
      decision, so the flag that dispatch leaves behind on the view is harmless
      to a second dispatch on the same object. */
  lemma FoldedFlagDecidesAlike(loginRequired: bool, staffOnly: bool, request: Request, login: Origin)
    ensures Decide(loginRequired || staffOnly, staffOnly, request, login) == Decide(loginRequired, staffOnly, request, login)
  {
  }

  /** A view that requires neither login nor staff lets every request through,
      whatever its identity. */
  lemma OpenViewAlwaysProceeds(request: Request, login: Origin)
    ensures Decide(false, false, request, login) == Proceed
  {
  }

  /** A client of the class: a staff-only view sends an anonymous visitor to
      the login page and leaves the context alone, refuses a signed-in
      non-staff user, and lets a staff member through with `premium` copied
      from the session. */
  method StaffOnlyScenario(url: RequestUrl, login: Origin)
  {
    var view := new TemplateView(false, true);
    var anonymous := Request(User(false, false), map["premium" := Bool(true)], url);
    var o := view.Dispatch(anonymous, login);
    assert o.RedirectToLogin? && view.loginRequired && view.context == map[];

    var member := Request(User(true, false), map["premium" := Bool(true)], url);
    o := view.Dispatch(member, login);
    assert o == Forbidden("Staff only!") && view.context == map[];

    var staff := Request(User(true, true), map["premium" := Bool(true)], url);
    o := view.Dispatch(staff, login);
    assert o == Proceed && view.GetContextData() == map["premium" := Bool(true)];
  }
}
