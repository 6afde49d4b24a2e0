/** The HTTP endpoints the portal registers: the root handler for `/` and
    one fixed response kind for each operating system's connectivity probe. */
module Routes {
  import opened Basics
  import opened Mongoose
  import opened Redirect
  import Root

  /** How a registered path is answered. */
  datatype RouteKind =
      /** A 200 page with a meta refresh to the portal. */
    | ServeRedirectHtml
      /** A 302 to the portal. */
    | Redirect302
      /** The root handler's decision. */
    | RootHandler

  /** One registered endpoint. */
  datatype Route = Route(path: string, kind: RouteKind)

  /** The probe endpoints, in registration order. */
  const ProbeRoutes: seq<Route> := [
    Route("/mobile/status.php", ServeRedirectHtml),       // Android 8 (Samsung)
    Route("/generate_204", ServeRedirectHtml),            // Android
    Route("/gen_204", Redirect302),                       // Android 9
    Route("/ncsi.txt", Redirect302),                      // Windows
    Route("/success.txt", Redirect302),                   // macOS
    Route("/hotspot-detect.html", Redirect302),           // iOS
    Route("/hotspotdetect.html", Redirect302),            // iOS
    Route("/library/test/success.html", Redirect302),     // iOS
    Route("/kindle-wifi/wifistub.html", Redirect302)      // Kindle
  ]

  /** Every endpoint, in registration order: the root handler first. */
  const RouteTable: seq<Route> := [Route("/", RootHandler)] + ProbeRoutes

  /** No path is registered twice. */
  predicate DistinctPaths(routes: seq<Route>) {
    forall i, j :: 0 <= i < j < |routes| ==> routes[i].path != routes[j].path
  }

  /** The kind registered for exactly `path`, the first one if several are. */
  function Lookup(routes: seq<Route>, path: string): (r: Option<RouteKind>)
    ensures r.Some? <==> exists k :: 0 <= k < |routes| && routes[k].path == path
    ensures r.Some? ==> exists k :: 0 <= k < |routes| && routes[k].path == path && routes[k].kind == r.value
  {
    if |routes| == 0 then None
    else if routes[0].path == path then Some(routes[0].kind)
    else
      assert forall k :: 1 <= k < |routes| ==> routes[k] == routes[1..][k - 1];
      Lookup(routes[1..], path)
  }

  /** The first route registered for a path decides its kind, even when
      the path is registered again later. */
  lemma {:induction false} LookupFirst(routes: seq<Route>, k: int)
    requires 0 <= k < |routes|
    requires forall j :: 0 <= j < k ==> routes[j].path != routes[k].path
    ensures Lookup(routes, routes[k].path) == Some(routes[k].kind)
    decreases k
  {
    if k > 0 {
      assert routes[1..][k - 1] == routes[k];
      assert forall j :: 0 <= j < k - 1 ==> routes[1..][j] == routes[j + 1];
      LookupFirst(routes[1..], k - 1);
    }
  }

  /** With distinct paths, looking a registered path up finds its own kind. */
  lemma {:induction false} LookupFindsRoute(routes: seq<Route>, k: int)
    requires DistinctPaths(routes) && 0 <= k < |routes|
    ensures Lookup(routes, routes[k].path) == Some(routes[k].kind)
    decreases k
  {
    if k > 0 {
      assert routes[0].path != routes[k].path;
      assert DistinctPaths(routes[1..]) by {
        forall i, j | 0 <= i < j < |routes[1..]|
          ensures routes[1..][i].path != routes[1..][j].path
        {
          assert routes[1..][i] == routes[i + 1] && routes[1..][j] == routes[j + 1];
        }
      }
      assert routes[1..][k - 1] == routes[k];
      LookupFindsRoute(routes[1..], k - 1);
    }
  }

  /** The ten registered paths are distinct. */
  lemma RouteTableDistinct()
    ensures DistinctPaths(RouteTable)
    ensures |RouteTable| == 10
  {
  }

  /** The classification of request paths as a table independent of the
      registration order: each probe path with the kind its operating
      system needs, `/` with the root handler, every other path unlisted. */
  function Classify(path: string): Option<RouteKind> {
    if path == "/" then Some(RootHandler)
    else if path in {"/mobile/status.php", "/generate_204"} then Some(ServeRedirectHtml)
    else if path in {"/gen_204", "/ncsi.txt", "/success.txt", "/hotspot-detect.html", "/hotspotdetect.html",
                     "/library/test/success.html", "/kindle-wifi/wifistub.html"} then Some(Redirect302)
    else None
  }

  /** Every registered route agrees with the classification. */
  lemma RegisteredRoutesClassified(k: int)
    requires 0 <= k < |RouteTable|
    ensures Classify(RouteTable[k].path) == Some(RouteTable[k].kind)
  {
  }

  /** Every classified path is registered. */
  lemma ClassifiedPathsRegistered(path: string)
    requires Classify(path).Some?
    ensures exists k :: 0 <= k < |RouteTable| && RouteTable[k].path == path
  {
    var paths := seq(|RouteTable|, k requires 0 <= k < |RouteTable| => RouteTable[k].path);
    assert paths == ["/", "/mobile/status.php", "/generate_204", "/gen_204", "/ncsi.txt", "/success.txt",
                     "/hotspot-detect.html", "/hotspotdetect.html", "/library/test/success.html",
                     "/kindle-wifi/wifistub.html"];
    assert path in paths;
  }

  /** Looking a path up in the registered routes gives exactly its
      classification: the probe paths their kinds, `/` the root handler,
      and no other path anything. */
  lemma {:induction false} RouteTableMatchesClassification(path: string)
    ensures Lookup(RouteTable, path) == Classify(path)
  {
    if k :| 0 <= k < |RouteTable| && RouteTable[k].path == path {
      RouteTableDistinct();
      LookupFindsRoute(RouteTable, k);
      RegisteredRoutesClassified(k);
    } else if Classify(path).Some? {
      ClassifiedPathsRegistered(path);
      assert false;
    }
  }

  /** The endpoint a request path reaches: the one registered for exactly
      that path, else the root endpoint when one is registered, else none. */
  function Dispatch(routes: seq<Route>, uri: string): (r: Option<RouteKind>)
    ensures Lookup(routes, uri).Some? ==> r == Lookup(routes, uri)
    ensures Lookup(routes, uri).None? ==> r == Lookup(routes, "/")
    ensures r.None? <==> Lookup(routes, uri).None? && Lookup(routes, "/").None?
  {
    match Lookup(routes, uri)
    case Some(kind) => Some(kind)
    case None => Lookup(routes, "/")
  }

  /** Runs the handler of one route kind. */
  function Serve(kind: RouteKind, ev: Event, site: Root.Site, sslCert: Option<string>): (r: HttpAction)
    ensures !ev.HttpRequest? ==> r == NoAction
    ensures kind == ServeRedirectHtml && ev.HttpRequest? ==> r == RedirectPageResponse(sslCert, site.hostname)
    ensures kind == Redirect302 && ev.HttpRequest? ==> r == RedirectResponse(sslCert, site.hostname)
    ensures kind == RootHandler ==> r == Root.Respond(ev, site, sslCert)
  {
    match kind
    case ServeRedirectHtml => RedirectPageHandler(ev, sslCert, site.hostname)
    case Redirect302 => RedirectHandler(ev, sslCert, site.hostname)
    case RootHandler => Root.Respond(ev, site, sslCert)
  }
}
