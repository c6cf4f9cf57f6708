/**
 regex_handler.go: a router over an ordered list of routes. A request is
 dispatched to the first route whose pattern matches the path and whose
 method list accepts the request's method; OPTIONS requests that nothing
 dispatches are answered with an Allow header; the rest get 405 or 404.
 */
module RegexHandler {
  import opened Wrappers
  import opened Text

  /** A compiled regular expression, known by its source text. */
  datatype Pattern = Pattern(source: string)

  /** The handler a route calls: registered by Handle, or a function wrapped by HandleFunc. */
  datatype HandlerRef = Handler(id: nat) | HandlerFunc(id: nat)

  /** `methods` is None for a nil slice, which is not the same as an empty one. */
  datatype Route = Route(pattern: Pattern, methods: Option<seq<string>>, handler: HandlerRef)

  /** What ServeHTTP does with a request: call a route's handler, answer OPTIONS, 405 or 404. */
  datatype Outcome = Dispatch(index: nat) | Options(allow: string) | NotAllowed | NotFound

  /** `pattern.MatchString(path)`; regular expressions themselves are outside this model. */
  type Matcher = (Pattern, string) -> bool

  const AllMethods: seq<string> := ["GET", "POST", "PUT", "PATCH", "DELETE", "CONNECT", "TRACE"]

  /** Handle appends one route; earlier routes keep their place, so registration order is priority order. */
  function Handle(routes: seq<Route>, pattern: Pattern, methods: Option<seq<string>>, handler: nat): (r: seq<Route>)
    ensures |r| == |routes| + 1 && r[..|routes|] == routes
    ensures r[|routes|] == Route(pattern, methods, Handler(handler))
  {
    routes + [Route(pattern, methods, Handler(handler))]
  }

  /** HandleFunc appends one route calling the wrapped function. */
  function HandleFunc(routes: seq<Route>, pattern: Pattern, methods: Option<seq<string>>, handler: nat): (r: seq<Route>)
    ensures |r| == |routes| + 1 && r[..|routes|] == routes
    ensures r[|routes|] == Route(pattern, methods, HandlerFunc(handler))
  {
    routes + [Route(pattern, methods, HandlerFunc(handler))]
  }

  /** One listed method admits the upper-cased request method: the same name, or GET for HEAD. */
  predicate Admits(listed: string, upper: string)
  {
    ToUpper(listed) == upper || (upper == "HEAD" && ToUpper(listed) == "GET")
  }

  /**
   A route accepts the upper-cased method: a nil list takes everything but
   OPTIONS, an explicit list takes what one of its entries admits.
   */
  predicate Accepts(route: Route, upper: string)
  {
    match route.methods
    case None => upper != "OPTIONS"
    case Some(ms) => exists m :: m in ms && Admits(m, upper)
  }

  /** Route i would take the request. */
  predicate Hit(routes: seq<Route>, i: nat, upper: string, path: string, matches: Matcher)
    requires i < |routes|
  {
    matches(routes[i].pattern, path) && Accepts(routes[i], upper)
  }

  /** Some route takes the request. */
  predicate SomeHit(routes: seq<Route>, upper: string, path: string, matches: Matcher)
  {
    exists i :: 0 <= i < |routes| && Hit(routes, i, upper, path, matches)
  }

  /** Some route's pattern matches the path. */
  predicate AnyMatch(routes: seq<Route>, path: string, matches: Matcher)
  {
    exists i :: 0 <= i < |routes| && matches(routes[i].pattern, path)
  }

  /** The explicit method lists of the routes matching the path, in order and original case. */
  function Allowed(routes: seq<Route>, path: string, matches: Matcher): seq<string>
    decreases |routes|
  {
    if routes == [] then []
    else
      var last := routes[|routes| - 1];
      Allowed(routes[..|routes| - 1], path, matches)
      + (if matches(last.pattern, path) && last.methods.Some? then last.methods.value else [])
  }

  /** The methods the Allow header names: the collected ones, or all of them when none were collected, then OPTIONS. */
  function AllowList(allowed: seq<string>): seq<string>
  {
    if |allowed| > 0 then allowed + ["OPTIONS"] else AllMethods + ["OPTIONS"]
  }

  /** The Allow header value: those methods joined by ", ". */
  function AllowHeader(allowed: seq<string>): string
  {
    Join(AllowList(allowed), ", ")
  }

  /**
   The index of the first route that takes the request, or |routes| when
   none does.
   */
  function FirstHit(routes: seq<Route>, upper: string, path: string, matches: Matcher): (k: nat)
    ensures k <= |routes|
    ensures k < |routes| ==> Hit(routes, k, upper, path, matches)
    ensures forall j :: 0 <= j < k ==> !Hit(routes, j, upper, path, matches)
    ensures k < |routes| <==> SomeHit(routes, upper, path, matches)
    decreases |routes|
  {
    if routes == [] then 0
    else if matches(routes[0].pattern, path) && Accepts(routes[0], upper) then
      assert Hit(routes, 0, upper, path, matches);
      0
    else
      var k := FirstHit(routes[1..], upper, path, matches);
      SomeHitTail(routes, upper, path, matches);
      assert forall j :: 1 <= j < k + 1 ==> (Hit(routes, j, upper, path, matches) <==> Hit(routes[1..], j - 1, upper, path, matches));
      k + 1
  }

  /** Past a first route that does not take the request, a hit is a hit in the rest. */
  lemma SomeHitTail(routes: seq<Route>, upper: string, path: string, matches: Matcher)
    requires routes != [] && !Hit(routes, 0, upper, path, matches)
    ensures SomeHit(routes, upper, path, matches) <==> SomeHit(routes[1..], upper, path, matches)
  {
    if SomeHit(routes, upper, path, matches) {
      var i :| 0 <= i < |routes| && Hit(routes, i, upper, path, matches);
      assert Hit(routes[1..], i - 1, upper, path, matches);
    }
    if SomeHit(routes[1..], upper, path, matches) {
      var i :| 0 <= i < |routes[1..]| && Hit(routes[1..], i, upper, path, matches);
      assert Hit(routes, i + 1, upper, path, matches);
    }
  }

  /** A route that takes the request with none before it taking it is the first hit. */
  lemma FirstHitIs(routes: seq<Route>, upper: string, path: string, matches: Matcher, i: nat)
    requires i < |routes| && Hit(routes, i, upper, path, matches)
    requires forall j :: 0 <= j < i ==> !Hit(routes, j, upper, path, matches)
    ensures FirstHit(routes, upper, path, matches) == i
  {
  }

  /**
   ServeHTTP: the first route that takes the request is dispatched; an
   OPTIONS request nothing takes is answered with Allow; any other request
   gets 405 when some pattern matched the path and 404 when none did.
   */
  function ServeHTTP(routes: seq<Route>, verb: string, path: string, matches: Matcher): (o: Outcome)
    ensures o.Dispatch? <==> SomeHit(routes, ToUpper(verb), path, matches)
    ensures o.Dispatch? ==> o.index < |routes| && Hit(routes, o.index, ToUpper(verb), path, matches)
                            && forall j :: 0 <= j < o.index ==> !Hit(routes, j, ToUpper(verb), path, matches)
    ensures o.Options? <==> !o.Dispatch? && ToUpper(verb) == "OPTIONS"
    ensures o.Options? ==> o.allow == AllowHeader(Allowed(routes, path, matches))
    ensures o.NotAllowed? <==> !o.Dispatch? && ToUpper(verb) != "OPTIONS" && AnyMatch(routes, path, matches)
    ensures o.NotFound? <==> !o.Dispatch? && ToUpper(verb) != "OPTIONS" && !AnyMatch(routes, path, matches)
  {
    var upper := ToUpper(verb);
    var k := FirstHit(routes, upper, path, matches);
    if k < |routes| then Dispatch(k)
    else if upper == "OPTIONS" then Options(AllowHeader(Allowed(routes, path, matches)))
    else if AnyMatch(routes, path, matches) then NotAllowed
    else NotFound
  }

  /** The inner loop over one route's methods: does any listed method admit the request? */
  method AdmitsAny(methods: seq<string>, upper: string) returns (found: bool)
    ensures found <==> exists m :: m in methods && Admits(m, upper)
  {
    found := false;
    var j := 0;
    while j < |methods|
      invariant 0 <= j <= |methods|
      invariant !found
      invariant forall q :: 0 <= q < j ==> !Admits(methods[q], upper)
    {
      var u := ToUpper(methods[j]);
      if u == upper || (upper == "HEAD" && u == "GET") {
        assert methods[j] in methods && Admits(methods[j], upper);
        found := true;
        return;
      }
      j := j + 1;
    }
    forall m | m in methods
      ensures !Admits(m, upper)
    {
      var q :| 0 <= q < |methods| && methods[q] == m;
    }
  }

  /**
   The scan as regex_handler.go writes it: one pass in registration order,
   returning at the first route that takes the request, collecting the
   explicit methods of matching routes for OPTIONS and remembering whether
   any pattern matched. It decides exactly what ServeHTTP describes.
   */
  method Scan(routes: seq<Route>, verb: string, path: string, matches: Matcher) returns (o: Outcome)
    ensures o == ServeHTTP(routes, verb, path, matches)
  {
    var upper := ToUpper(verb);
    var allowed: seq<string> := [];
    var oneMatch := false;
    var i := 0;
    while i < |routes|
      invariant 0 <= i <= |routes|
      invariant forall j :: 0 <= j < i ==> !Hit(routes, j, upper, path, matches)
      invariant upper == "OPTIONS" ==> allowed == Allowed(routes[..i], path, matches)
      invariant oneMatch <==> exists j :: 0 <= j < i && matches(routes[j].pattern, path)
    {
      var route := routes[i];
      assert routes[..i + 1][..i] == routes[..i];
      if matches(route.pattern, path) {
        oneMatch := true;
        if route.methods.None? && upper != "OPTIONS" {
          FirstHitIs(routes, upper, path, matches, i);
          return Dispatch(i);
        }
        var ms := if route.methods.Some? then route.methods.value else [];
        var found := AdmitsAny(ms, upper);
        if found {
          FirstHitIs(routes, upper, path, matches, i);
          return Dispatch(i);
        }
        if upper == "OPTIONS" {
          allowed := allowed + ms;
        }
      }
      i := i + 1;
    }
    assert routes[..i] == routes;
    if upper == "OPTIONS" {
      return Options(AllowHeader(allowed));
    }
    if oneMatch {
      return NotAllowed;
    }
    return NotFound;
  }

  /** A request the existing routes dispatch is dispatched to the same route after another Handle. */
  lemma HandleKeepsDispatch(routes: seq<Route>, pattern: Pattern, methods: Option<seq<string>>, handler: nat,
                            verb: string, path: string, matches: Matcher)
    requires ServeHTTP(routes, verb, path, matches).Dispatch?
    ensures ServeHTTP(Handle(routes, pattern, methods, handler), verb, path, matches) == ServeHTTP(routes, verb, path, matches)
  {
    var routes' := Handle(routes, pattern, methods, handler);
    var k := ServeHTTP(routes, verb, path, matches).index;
    assert Hit(routes', k, ToUpper(verb), path, matches);
    assert forall j :: 0 <= j < k ==> routes'[j] == routes[j];
    assert forall j :: 0 <= j < k ==> (Hit(routes', j, ToUpper(verb), path, matches) <==> Hit(routes, j, ToUpper(verb), path, matches));
    FirstHitIs(routes', ToUpper(verb), path, matches, k);
  }

  /**
   A later route is reached only when no earlier route takes the request:
   the new route is dispatched exactly when it takes the request and none of
   the earlier ones does.
   */
  lemma HandleReachedLast(routes: seq<Route>, pattern: Pattern, methods: Option<seq<string>>, handler: nat,
                          verb: string, path: string, matches: Matcher)
    ensures var routes' := HandleFunc(routes, pattern, methods, handler);
            ServeHTTP(routes', verb, path, matches) == Dispatch(|routes|)
            <==> !ServeHTTP(routes, verb, path, matches).Dispatch? && Hit(routes', |routes|, ToUpper(verb), path, matches)
  {
    var routes' := HandleFunc(routes, pattern, methods, handler);
    assert forall j :: 0 <= j < |routes| ==> routes'[j] == routes[j];
    var upper := ToUpper(verb);
    assert forall j :: 0 <= j < |routes| ==> (Hit(routes', j, upper, path, matches) <==> Hit(routes, j, upper, path, matches));
    if !ServeHTTP(routes, verb, path, matches).Dispatch? && Hit(routes', |routes|, upper, path, matches) {
      FirstHitIs(routes', upper, path, matches, |routes|);
    }
  }

  /** The request method is compared without regard to ASCII case. */
  lemma MethodCaseInsensitive(routes: seq<Route>, verb: string, path: string, matches: Matcher)
    ensures ServeHTTP(routes, verb, path, matches) == ServeHTTP(routes, ToUpper(verb), path, matches)
  {
    ToUpperIdempotent(verb);
  }

  /** Every route with its listed methods upper-cased. */
  function UpperRoutes(routes: seq<Route>): (r: seq<Route>)
    ensures |r| == |routes|
    ensures forall i :: 0 <= i < |routes| ==> r[i].pattern == routes[i].pattern && r[i].handler == routes[i].handler
  {
    seq(|routes|, i requires 0 <= i < |routes| =>
      var ms := routes[i].methods;
      routes[i].(methods := if ms.Some? then Some(seq(|ms.value|, j requires 0 <= j < |ms.value| => ToUpper(ms.value[j]))) else None))
  }

  /**
   The route methods are compared without regard to ASCII case: upper-casing
   every listed method changes no decision. Only the Allow text can differ,
   since it keeps the original case.
   */
  lemma RouteMethodCaseInsensitive(routes: seq<Route>, verb: string, path: string, matches: Matcher)
    ensures var o := ServeHTTP(routes, verb, path, matches);
            var o' := ServeHTTP(UpperRoutes(routes), verb, path, matches);
            (o.Options? <==> o'.Options?) && (!o.Options? ==> o' == o)
  {
    var up := UpperRoutes(routes);
    forall i | 0 <= i < |routes|
      ensures Hit(up, i, ToUpper(verb), path, matches) <==> Hit(routes, i, ToUpper(verb), path, matches)
    {
      var ms := routes[i].methods;
      if ms.Some? {
        var us := up[i].methods.value;
        forall m | m in ms.value
          ensures ToUpper(m) in us && (Admits(m, ToUpper(verb)) <==> Admits(ToUpper(m), ToUpper(verb)))
        {
          var j :| 0 <= j < |ms.value| && ms.value[j] == m;
          assert us[j] == ToUpper(m);
          ToUpperIdempotent(m);
        }
        forall u | u in us
          ensures exists m :: m in ms.value && ToUpper(m) == u
        {
          var j :| 0 <= j < |us| && us[j] == u;
          assert ms.value[j] in ms.value;
        }
        forall u | u in us
          ensures Admits(u, ToUpper(verb)) ==> exists m :: m in ms.value && Admits(m, ToUpper(verb))
        {
          var m :| m in ms.value && ToUpper(m) == u;
          ToUpperIdempotent(m);
        }
      }
    }
    assert forall i :: 0 <= i < |routes| ==> (matches(up[i].pattern, path) <==> matches(routes[i].pattern, path));
  }

  /** A nil method list takes every method but OPTIONS. */
  lemma NilMethodsAcceptAllButOptions(route: Route, verb: string)
    requires route.methods.None?
    ensures Accepts(route, ToUpper(verb)) <==> ToUpper(verb) != "OPTIONS"
  {
  }

  /** HEAD is taken wherever GET is listed, in any case. */
  lemma HeadViaGet(route: Route, listed: string)
    requires route.methods.Some? && listed in route.methods.value && ToUpper(listed) == "GET"
    ensures Accepts(route, "HEAD")
  {
    assert Admits(listed, "HEAD");
  }

  /** An OPTIONS request reaches a handler only through a route that lists OPTIONS itself. */
  lemma OptionsDispatchNeedsListing(routes: seq<Route>, verb: string, path: string, matches: Matcher)
    requires ToUpper(verb) == "OPTIONS" && ServeHTTP(routes, verb, path, matches).Dispatch?
    ensures var k := ServeHTTP(routes, verb, path, matches).index;
            routes[k].methods.Some? && exists m :: m in routes[k].methods.value && ToUpper(m) == "OPTIONS"
  {
  }

  /** strings.Join with at least two elements ends in the separator and the last element. */
  lemma {:induction false} JoinLast(xs: seq<string>, sep: string)
    requires |xs| >= 2
    ensures Join(xs, sep) == Join(xs[..|xs| - 1], sep) + sep + xs[|xs| - 1]
    decreases |xs|
  {
    if |xs| > 2 {
      JoinLast(xs[1..], sep);
      assert xs[1..][..|xs[1..]| - 1] == xs[..|xs| - 1][1..];
    }
  }

  /** The Allow header always closes with ", OPTIONS". */
  lemma AllowEndsWithOptions(allowed: seq<string>)
    ensures var a := AllowHeader(allowed); |a| >= 9 && a[|a| - 9..] == ", OPTIONS"
  {
    var xs := AllowList(allowed);
    assert |xs| >= 2 && xs[|xs| - 1] == "OPTIONS";
    JoinLast(xs, ", ");
    var pre := Join(xs[..|xs| - 1], ", ");
    assert AllowHeader(allowed) == pre + ", OPTIONS";
    EndsWith(pre, ", OPTIONS");
  }

  lemma EndsWith(pre: string, tail: string)
    ensures var a := pre + tail; a[|a| - |tail|..] == tail
  {
  }

  lemma JoinCons(x: string, rest: seq<string>, sep: string)
    requires rest != []
    ensures Join([x] + rest, sep) == x + sep + Join(rest, sep)
  {
    assert ([x] + rest)[1..] == rest;
  }

  /** With no explicit list collected, Allow names every method, CONNECT and TRACE included, then OPTIONS. */
  lemma DefaultAllow()
    ensures AllowList([]) == ["GET", "POST", "PUT", "PATCH", "DELETE", "CONNECT", "TRACE", "OPTIONS"]
  {
  }

  /** The single-path matcher for `^/v1$`. */
  function V1(p: Pattern, path: string): bool
  {
    path == "/v1"
  }

  /** A text without lower-case ASCII letters is its own upper-case form. */
  lemma UpperFixed(s: string)
    requires forall i :: 0 <= i < |s| ==> !('a' <= s[i] <= 'z')
    ensures ToUpper(s) == s
  {
  }

  /** Upper-casing a text character by character. */
  lemma UpperOf(s: string, t: string)
    requires |s| == |t| && forall i :: 0 <= i < |s| ==> UpperChar(s[i]) == t[i]
    ensures ToUpper(s) == t
  {
  }

  /** A router with a single route decides on that route alone. */
  lemma SingleRoute(route: Route, verb: string, path: string, matches: Matcher)
    ensures ServeHTTP([route], verb, path, matches) ==
              if matches(route.pattern, path) && Accepts(route, ToUpper(verb)) then Dispatch(0)
              else if ToUpper(verb) == "OPTIONS" then
                Options(AllowHeader(if matches(route.pattern, path) && route.methods.Some? then route.methods.value else []))
              else if matches(route.pattern, path) then NotAllowed
              else NotFound
  {
    var routes := [route];
    var upper := ToUpper(verb);
    assert routes[0] == route && routes[..0] == [];
    assert Allowed(routes, path, matches)
        == (if matches(route.pattern, path) && route.methods.Some? then route.methods.value else []);
    assert AnyMatch(routes, path, matches) <==> matches(route.pattern, path);
    assert SomeHit(routes, upper, path, matches) <==> Hit(routes, 0, upper, path, matches);
  }

  /** One route for GET and POST on /v1. */
  function GetPost(h: nat): seq<Route>
  {
    HandleFunc([], Pattern("^/v1$"), Some(["GET", "POST"]), h)
  }

  /** GET /v1 is dispatched to the route. */
  lemma GetPostGet(h: nat)
    ensures ServeHTTP(GetPost(h), "GET", "/v1", V1) == Dispatch(0)
  {
    UpperFixed("GET");
    assert "GET" in ["GET", "POST"] && Admits("GET", "GET");
    SingleRoute(GetPost(h)[0], "GET", "/v1", V1);
  }

  /** HEAD /v1 is dispatched through the listed GET. */
  lemma GetPostHead(h: nat)
    ensures ServeHTTP(GetPost(h), "HEAD", "/v1", V1) == Dispatch(0)
  {
    UpperFixed("GET");
    UpperFixed("HEAD");
    assert "GET" in ["GET", "POST"] && Admits("GET", "HEAD");
    SingleRoute(GetPost(h)[0], "HEAD", "/v1", V1);
  }

  /** PATCH /v1 matches the pattern but not the methods: 405. */
  lemma GetPostPatch(h: nat)
    ensures ServeHTTP(GetPost(h), "PATCH", "/v1", V1) == NotAllowed
  {
    UpperFixed("GET");
    UpperFixed("POST");
    UpperFixed("PATCH");
    assert !Admits("GET", "PATCH") && !Admits("POST", "PATCH");
    SingleRoute(GetPost(h)[0], "PATCH", "/v1", V1);
  }

  /** POST to a path no pattern matches: 404. */
  lemma GetPostUnknown(h: nat)
    ensures ServeHTTP(GetPost(h), "POST", "/unknown", V1) == NotFound
  {
    UpperFixed("POST");
    SingleRoute(GetPost(h)[0], "POST", "/unknown", V1);
  }

  /** Two routes on /v1, the first for GET, the second for post. */
  function TwoRoutes(h1: nat, h2: nat): seq<Route>
  {
    HandleFunc(HandleFunc([], Pattern("^/v1$"), Some(["GET"]), h1), Pattern("^/v1$"), Some(["post"]), h2)
  }

  /** A POST skips the matching GET route and goes to the second one. */
  lemma MatchingRoutesPost(h1: nat, h2: nat)
    ensures ServeHTTP(TwoRoutes(h1, h2), "POST", "/v1", V1) == Dispatch(1)
  {
    var routes := TwoRoutes(h1, h2);
    UpperFixed("POST");
    UpperFixed("GET");
    UpperOf("post", "POST");
    assert Admits("post", "POST");
    assert Hit(routes, 1, ToUpper("POST"), "/v1", V1);
    assert !Hit(routes, 0, ToUpper("POST"), "/v1", V1);
    FirstHitIs(routes, "POST", "/v1", V1, 1);
  }

  /** Neither of the two routes lists OPTIONS. */
  lemma TwoRoutesNoOptions(h1: nat, h2: nat)
    ensures !SomeHit(TwoRoutes(h1, h2), "OPTIONS", "/v1", V1)
  {
    var routes := TwoRoutes(h1, h2);
    UpperFixed("GET");
    UpperOf("post", "POST");
    assert forall m :: m in ["GET"] ==> m == "GET";
    assert forall m :: m in ["post"] ==> m == "post";
    assert !Hit(routes, 0, "OPTIONS", "/v1", V1) && !Hit(routes, 1, "OPTIONS", "/v1", V1);
  }

  /** Both routes match "/v1", so both lists are collected in registration order. */
  lemma TwoRoutesAllowed(h1: nat, h2: nat)
    ensures Allowed(TwoRoutes(h1, h2), "/v1", V1) == ["GET", "post"]
  {
    var routes := TwoRoutes(h1, h2);
    assert routes[..1] == [routes[0]] && routes[..1][..0] == [];
    assert Allowed(routes[..1], "/v1", V1) == ["GET"];
  }

  /** An OPTIONS request, in any case, is answered with both lists in their original case. */
  lemma MatchingRoutesOptions(h1: nat, h2: nat)
    ensures ServeHTTP(TwoRoutes(h1, h2), "options", "/v1", V1) == Options(Join(["GET", "post", "OPTIONS"], ", "))
  {
    UpperOf("options", "OPTIONS");
    TwoRoutesNoOptions(h1, h2);
    TwoRoutesAllowed(h1, h2);
    assert AllowList(["GET", "post"]) == ["GET", "post", "OPTIONS"];
  }

  /** A nil-method route takes PATCH. */
  lemma NilRoutePatch(h: nat)
    ensures ServeHTTP(HandleFunc([], Pattern("^/v1$"), None, h), "PATCH", "/v1", V1) == Dispatch(0)
  {
    UpperFixed("PATCH");
    SingleRoute(Route(Pattern("^/v1$"), None, HandlerFunc(h)), "PATCH", "/v1", V1);
  }

  /** An OPTIONS request to a nil-method route is answered with every method. */
  lemma NilRouteOptions(h: nat)
    ensures ServeHTTP(HandleFunc([], Pattern("^/v1$"), None, h), "OPTIONS", "/v1", V1)
            == Options(Join(["GET", "POST", "PUT", "PATCH", "DELETE", "CONNECT", "TRACE", "OPTIONS"], ", "))
  {
    UpperFixed("OPTIONS");
    SingleRoute(Route(Pattern("^/v1$"), None, HandlerFunc(h)), "OPTIONS", "/v1", V1);
    DefaultAllow();
  }
}
