# Gojira view base classes, modelled in Dafny

This project models the decision logic of the base view classes in
`gojira/utils/views.py`: the template views of a Django site that inject extra
context values, gate access on login or staff status, and work out where a
visitor should return after logging in. The Django objects (request, user,
session, settings, responses) are plain inputs and outputs.

- `values.dfy` (module `Values`): an `Option`, a small universe `Value` of the
  Python values that reach a context or a session, and `SessionGet`, the
  `session.get(key)` lookup that yields `None` for a missing key.
- `context_merge.dfy` (module `ContextMerge`): `DirectTemplateView` with its
  `extra_context` class attribute (`None` or a map of `Static` values and
  `Producer` callables). `GetContextData` is the source's loop over the
  dictionary's items, visiting keys in an arbitrary order, and is proved to
  produce `Merged`, the key-by-key statement of the result.
- `redirect.dfy` (module `LoginRedirect`): `RedirectTarget`, the "next" target
  of `redirect_to_login`, with the same-origin test on scheme and network
  location.
- `dispatch.dfy` (module `Dispatch`): `TemplateView`, a class with the mutable
  `loginRequired` flag and `context` map; `Dispatch` is proved against
  `Decide`, the ordered redirect / forbidden / proceed decision.
  `GetContextData` returns the value of the view's `context`. The contract of
  `Dispatch` states what happens to `context`. The code reassigns
  `login_required` on the view object rather than computing a local effective
  flag, and the model does the same. `FoldedFlagDecidesAlike` shows that the
  flag it leaves behind does not change the decision for a later request.

## Model

| member | source | states |
|---|---|---|
| `ContextMerge.Merged` | gojira/utils/views.py:14-22 | with no extra context the result is the base context exactly; otherwise its keys are the base keys plus the extra keys, every extra key maps to its resolved value (a callable's result, a plain value itself) and overrides the base, and every other base key keeps its value |
| `ContextMerge.DirectTemplateView.GetContextData` | gojira/utils/views.py:14-22 | the loop that overwrites the context entry by entry, in any key order, ends with exactly the `Merged` context |
| `ContextMerge.DirectTemplateView.constructor` | gojira/utils/views.py:11-12 | the view keeps the configured `extra_context` (possibly `None`) |
| `ContextMerge.EmptyExtraIsIdentity` | gojira/utils/views.py:16-22 | an empty extra-context map leaves the base context unchanged, like an absent one |
| `ContextMerge.MergeExample` | gojira/utils/views.py:14-22 | base `{a: 1}` with extra `{b: callable returning 2, c: 3}` gives `{a: 1, b: 2, c: 3}` |
| `LoginRedirect.RedirectTarget` | gojira/utils/views.py:60-84 | an explicit path is the target verbatim; without one the target is the request's full path when the login URL's scheme and netloc are each empty or equal to the current ones, and the absolute URI otherwise |
| `LoginRedirect.RelativeLoginKeepsPathRelative` | gojira/utils/views.py:76-82 | a login URL with neither scheme nor netloc always gives the relative full path |
| `LoginRedirect.SameHostLoginKeepsPathRelative` | gojira/utils/views.py:76-82 | a login URL on the request's own scheme and netloc gives the relative full path |
| `LoginRedirect.ForeignLoginKeepsUriAbsolute` | gojira/utils/views.py:76-82 | a login URL naming another scheme, or another netloc, keeps the absolute URI |
| `LoginRedirect.RedirectExamples` | gojira/utils/views.py:72-84 | same host gives `/dashboard`, a different host keeps `https://app.example.com/dashboard`, an explicit path passes through |
| `Dispatch.Decide` | gojira/utils/views.py:44-57 | redirect to login exactly when login or staff is required and the user is not authenticated, with the target of `RedirectTarget` for no explicit path; forbidden with body `Staff only!` exactly when staff-only, authenticated and not staff (so an anonymous visitor is never forbidden); proceed in every other case |
| `Dispatch.TemplateView.constructor` | gojira/utils/views.py:36-42 | the flags are the view's configuration and the context starts empty |
| `Dispatch.TemplateView.Dispatch` | gojira/utils/views.py:44-57 | afterwards `loginRequired` is the old flag or `staffOnly` (so it never drops back to false); the outcome is `Decide` on the old flags; on proceed `context["premium"]` is the session's `premium` value (`None` when absent) and no other key changes; on redirect or forbidden the context is untouched |
| `Dispatch.TemplateView.GetContextData` | gojira/utils/views.py:86-87 | the context handed to the template is the view's own `context` state, so after a proceeding `Dispatch` it holds `premium` from the session and every key set before |
| `Dispatch.FoldedFlagDecidesAlike` | gojira/utils/views.py:45-46 | the folded `loginRequired` that dispatch leaves on the view decides every later request the same way as the original flag |
| `Dispatch.OpenViewAlwaysProceeds` | gojira/utils/views.py:36-37 | with both flags false every request proceeds, whatever its identity |

## Left out

- ContextMerge.DirectTemplateView.GetContextData: models a direct instance of `DirectTemplateView` only, which is what `direct_template` creates. In a subclass, `super(self.__class__, self)` at line 15 names the subclass, so the call comes back to `DirectTemplateView.get_context_data` itself. It recurses until Python raises its recursion-limit error, and no context is ever produced. The model does not capture that failure.
- Dispatch.TemplateView.GetContextData: returns a map value, a snapshot of `context`. In the source the caller gets the view's own dictionary object, so the caller's later changes to it also change the view. That aliasing is not modelled.
- Django's `generic.TemplateView` machinery: the superclass `get_context_data` (for a direct instance, its result is the `base` input), the superclass `dispatch` and template rendering that follow a proceed, `as_view` and `direct_template`.
- The extra-context callables themselves: they are foreign code, so a `Producer` carries the value its call returns for the request at hand, and their side effects are not modelled.
- URL splitting (`urlparse`) and the read of the `LOGIN_URL` setting: the login URL and the request's absolute URI arrive as already split scheme and netloc strings, and the model does not check that the split matches the URI string.
- Building the responses: Django's `redirect_to_login` (with `REDIRECT_FIELD_NAME`) is represented by the target string it is given, and `HttpResponseForbidden` by its body.
- The request, user and session objects: reduced to the two identity booleans, a string-keyed map and the three URL facts that are read. Python values other than `None`, booleans, integers and strings are not told apart by type; `Object(id)` stands for each of them by identity.
- `require_feature_access`, which nothing in the core reads; `Redirect.get`, which only raises `NotImplementedError`; the empty exception classes `BadRequest` and `Forbidden`; logging.
