/**
 * The single-page app's routes and its navigation guard: a query carrying a truthy
 * `code` (an OAuth authorization response) always ends on `/oauth-callback`.
 */
module Router {

  /** A query value as the router parses it: a string, a bare key (`null`) or a repeated key (an array). */
  datatype QueryValue = QStr(s: string) | QNull | QList(items: seq<QueryValue>)

  type Query = map<string, QueryValue>

  datatype Location = Location(path: string, query: Query)

  /** The guard's answer: `next()` or `next({ path, query })`. */
  datatype Decision = Proceed | Redirect(to: Location)

  /** JavaScript truthiness of a query value: a non-empty string or any array. */
  predicate Truthy(v: QueryValue) {
    match v
    case QStr(s) => s != ""
    case QNull => false
    case QList(_) => true
  }

  /** `to.query?.code` is truthy; a missing key reads as `undefined`. */
  predicate HasCode(q: Query) {
    "code" in q && Truthy(q["code"])
  }

  const CallbackPath := "/oauth-callback"
  const RootPath := "/"

  /** The `beforeEach` guard. */
  function Guard(to: Location): (d: Decision)
    ensures to.path == CallbackPath ==> d == Proceed
    ensures to.path != CallbackPath && HasCode(to.query) ==> d == Redirect(Location(CallbackPath, to.query))
    ensures !HasCode(to.query) ==> d == Proceed
  {
    if to.path == CallbackPath then Proceed
    else if HasCode(to.query) then Redirect(Location(CallbackPath, to.query))
    else Proceed
  }

  /** The guard's redirect target passes the guard: one redirect at most. */
  lemma RedirectTargetProceeds(to: Location)
    requires Guard(to).Redirect?
    ensures Guard(Guard(to).to) == Proceed
  {
  }

  /** The views of the route table. */
  datatype View = PlaygroundView | OAuthCallbackView

  /** Route records in order; the catch-all `/:pathMatch(.*)*` redirects every other path to `/`. */
  function ResolveRedirect(to: Location): (r: Location)
    ensures r.query == to.query
    ensures r.path == RootPath || r.path == CallbackPath
    ensures to.path == RootPath || to.path == CallbackPath ==> r == to
  {
    if to.path == RootPath || to.path == CallbackPath then to else Location(RootPath, to.query)
  }

  function ViewOf(path: string): View
    requires path == RootPath || path == CallbackPath
  {
    if path == CallbackPath then OAuthCallbackView else PlaygroundView
  }

  /**
   * One navigation: the route table's redirect is resolved, the guard runs on the result,
   * and a redirect from the guard starts a second navigation, whose guard proceeds.
   */
  function Navigate(to: Location): (final: Location)
    ensures final.query == to.query
    ensures final.path == RootPath || final.path == CallbackPath
  {
    var target := ResolveRedirect(to);
    match Guard(target)
    case Proceed => target
    case Redirect(next) =>
      RedirectTargetProceeds(target);
      ResolveRedirect(next)
  }

  /** Wherever the OAuth provider sends the browser, a truthy `code` lands on the callback view with its query intact. */
  lemma CodeLandsOnCallback(to: Location)
    requires HasCode(to.query)
    ensures Navigate(to) == Location(CallbackPath, to.query)
    ensures ViewOf(Navigate(to).path) == OAuthCallbackView
  {
  }

  /** Without a code, `/oauth-callback` stays where it is and every other path shows the playground. */
  lemma NoCodeKeepsPath(to: Location)
    requires !HasCode(to.query)
    ensures to.path == CallbackPath ==> Navigate(to) == to
    ensures to.path != CallbackPath ==> Navigate(to) == Location(RootPath, to.query)
  {
  }

  /** Navigating to where a navigation ended ends in the same place. */
  lemma NavigateIdempotent(to: Location)
    ensures Navigate(Navigate(to)) == Navigate(to)
  {
  }
}
