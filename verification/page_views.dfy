/**
 * The page-view middleware (`TrackPageViews`): after the application has
 * answered, a successful, non-ajax GET that no exclusion pattern matches is
 * reported as a page call under a readable page name. The response passes
 * through untouched, and a failure of the page call never reaches it.
 */
module PageViews {
  import opened Basics
  import opened Values
  import opened Config
  import opened Manager
  import FakeFacade
  import Client

  /** The framework's string helpers, which the model takes as given:
      `Str::is($pattern, $value)` and `Str::title($value)`. */
  datatype StrLib = StrLib(matches: (string, string) -> bool, title: string -> string)

  /** What the middleware reads of a request. `path` is Laravel's path
      (`/` for the root), `httpMethod` the upper-case method name. */
  datatype HttpRequest = HttpRequest(
    httpMethod: string,
    path: string,
    fullUrl: string,
    referer: Option<string>,
    queryString: Option<string>,
    ajax: bool,
    wantsJson: bool,
    routeName: Option<string>)

  /** A response; `status` is absent when the response object has no `status()` method. */
  datatype HttpResponse = HttpResponse(status: Option<int>, content: string)

  /** The `foreach` over the patterns: true at the first one that matches. */
  function AnyMatches(lib: StrLib, patterns: seq<string>, subject: string): (r: bool)
    ensures r <==> exists i :: 0 <= i < |patterns| && lib.matches(patterns[i], subject)
  {
    if |patterns| == 0 then false
    else if lib.matches(patterns[0], subject) then true
    else
      var r := AnyMatches(lib, patterns[1..], subject);
      assert forall i :: 0 < i < |patterns| ==> patterns[i] == patterns[1..][i - 1];
      r
  }

  /** `isRouteExcluded`: an empty list excludes nothing; otherwise the path
      is matched against every pattern. */
  predicate RouteExcluded(s: Settings, lib: StrLib, request: HttpRequest) {
    if |s.excludedRoutes| == 0 then false else AnyMatches(lib, s.excludedRoutes, request.path)
  }

  /** `isUrlExcluded`: the same over the full URL. */
  predicate UrlExcluded(s: Settings, lib: StrLib, request: HttpRequest) {
    if |s.excludedUrls| == 0 then false else AnyMatches(lib, s.excludedUrls, request.fullUrl)
  }

  /** `shouldTrackPageView`: the early returns in the order the source takes them. */
  predicate ShouldTrack(s: Settings, lib: StrLib, request: HttpRequest, response: HttpResponse) {
    if request.httpMethod != "GET" then false
    else if response.status.Some? && response.status.value >= 400 then false
    else if request.ajax || request.wantsJson then false
    else if RouteExcluded(s, lib, request) then false
    else if UrlExcluded(s, lib, request) then false
    else true
  }

  /** The separators `getPageName` turns into spaces: those of route names and of paths. */
  const RouteSeparators: set<char> := {'.', '-', '_'}
  const PathSeparators: set<char> := {'/', '-', '_'}

  /** A route name counts when the route has one and it is truthy. */
  predicate HasRouteName(request: HttpRequest) {
    request.routeName.Some? && !EmptyString(request.routeName.value)
  }

  /** The text `getPageName` hands to `Str::title`, or none for the root path,
      which is called "Home". */
  function TitleSource(request: HttpRequest): (r: Option<string>)
    ensures r.None? <==> !HasRouteName(request) && request.path == "/"
    ensures HasRouteName(request) ==>
              && |r.value| == |request.routeName.value|
              && (forall i :: 0 <= i < |r.value| ==> r.value[i] !in RouteSeparators)
              && (forall i :: 0 <= i < |r.value| && request.routeName.value[i] !in RouteSeparators ==>
                    r.value[i] == request.routeName.value[i])
              && (forall i :: 0 <= i < |r.value| && request.routeName.value[i] in RouteSeparators ==> r.value[i] == ' ')
    ensures !HasRouteName(request) && r.Some? ==>
              && |r.value| == |request.path|
              && (forall i :: 0 <= i < |r.value| ==> r.value[i] !in PathSeparators)
              && (forall i :: 0 <= i < |r.value| && request.path[i] !in PathSeparators ==> r.value[i] == request.path[i])
              && (forall i :: 0 <= i < |r.value| && request.path[i] in PathSeparators ==> r.value[i] == ' ')
  {
    if HasRouteName(request) then Some(ReplaceChars(request.routeName.value, RouteSeparators, ' '))
    else if request.path == "/" then None
    else Some(ReplaceChars(request.path, PathSeparators, ' '))
  }

  /** `getPageName`. */
  function PageName(lib: StrLib, request: HttpRequest): (r: string)
    ensures TitleSource(request).None? ==> r == "Home"
    ensures TitleSource(request).Some? ==> r == lib.title(TitleSource(request).value)
  {
    match TitleSource(request)
    case None => "Home"
    case Some(text) => lib.title(text)
  }

  /** The properties `trackPageView` sends along with the page name. */
  function PageProperties(request: HttpRequest, name: string): Array {
    map["url" := Str(request.fullUrl), "path" := Str(request.path), "referrer" := OfOption(request.referer),
        "title" := Str(name), "search" := OfOption(request.queryString), "method" := Str(request.httpMethod)]
  }

  /** The middleware's result: the response it returns, and the facade's page
      call it made, if any. */
  datatype Handled = Handled(response: HttpResponse, page: Option<Args>)

  /** `handle($request, $next)`, given the response `$next` produced. */
  function Handle(s: Settings, lib: StrLib, request: HttpRequest, response: HttpResponse): (r: Handled)
    ensures r.response == response
    ensures r.page.Some? <==> ShouldTrack(s, lib, request, response)
    ensures r.page.Some? ==> r.page.value.PageArgs? && r.page.value.name == Some(PageName(lib, request))
                             && r.page.value.userId.None? && r.page.value.anonymousId.None?
  {
    if ShouldTrack(s, lib, request, response) then
      var name := PageName(lib, request);
      Handled(response, Some(PageArgs(Some(name), PageProperties(request, name), None, None)))
    else Handled(response, None)
  }

  /* ---------- properties ---------- */

  /** A page view is tracked exactly for a GET whose response is not an error,
      that is neither ajax nor asks for JSON, and whose path and URL no
      configured pattern matches. */
  lemma TrackedExactly(s: Settings, lib: StrLib, request: HttpRequest, response: HttpResponse)
    ensures ShouldTrack(s, lib, request, response) <==>
              && request.httpMethod == "GET"
              && !(response.status.Some? && response.status.value >= 400)
              && !request.ajax && !request.wantsJson
              && !(exists i :: 0 <= i < |s.excludedRoutes| && lib.matches(s.excludedRoutes[i], request.path))
              && !(exists i :: 0 <= i < |s.excludedUrls| && lib.matches(s.excludedUrls[i], request.fullUrl))
  {
  }

  /** With no exclusion lists, every successful plain GET is tracked, whatever
      `Str::is` would say. */
  lemma EmptyListsExcludeNothing(s: Settings, lib: StrLib, request: HttpRequest, response: HttpResponse)
    requires s.excludedRoutes == [] && s.excludedUrls == []
    requires request.httpMethod == "GET" && !request.ajax && !request.wantsJson
    requires response.status.None? || response.status.value < 400
    ensures Handle(s, lib, request, response).page.Some?
  {
  }

  /** The page name does not depend on which separator a route name or path
      uses: two that differ only in separators get the same name. */
  lemma SeparatorsAreInterchangeable(lib: StrLib, request: HttpRequest, other: HttpRequest)
    requires HasRouteName(request) && HasRouteName(other)
    requires |request.routeName.value| == |other.routeName.value|
    requires forall i :: 0 <= i < |request.routeName.value| ==>
               request.routeName.value[i] == other.routeName.value[i]
               || (request.routeName.value[i] in RouteSeparators && other.routeName.value[i] in RouteSeparators)
    ensures PageName(lib, request) == PageName(lib, other)
  {
    var a := TitleSource(request).value;
    var b := TitleSource(other).value;
    assert |a| == |b|;
    forall i | 0 <= i < |a|
      ensures a[i] == b[i]
    {
    }
    assert a == b;
  }

  /** The middleware's page call, made against the test double, is what
      `assertPageViewed` with the page name looks for, and the name is also
      sent as the title. */
  lemma TrackedPageIsAssertable(s: Settings, lib: StrLib, request: HttpRequest, response: HttpResponse,
                                f: FakeFacade.Fake)
    requires ShouldTrack(s, lib, request, response)
    ensures var call := Handle(s, lib, request, response).page.value;
            && call.properties["title"] == Str(PageName(lib, request))
            && FakeFacade.AssertPageViewed(FakeFacade.Call(f, call).fake, Some(PageName(lib, request)), None)
  {
    var call := Handle(s, lib, request, response).page.value;
    FakeFacade.PageThenAssertPageViewed(f, call.name, call.properties, None, None);
    var criteria := map["name" := OfOption(call.name), "properties" := FakeFacade.OfArray(None)];
    var g := FakeFacade.Call(f, call).fake;
    assert FakeFacade.Matches(FakeFacade.Entry(call), criteria);
    assert FakeFacade.LogOf(g, Client.PageVerb) == f.pageCalls + [FakeFacade.Entry(call)];
    assert FakeFacade.Entry(call) in FakeFacade.FilterCalls(g.pageCalls, criteria);
  }
}
