/** The handler registered for `/`: it serves the setup page to clients
    that already address the portal by name, redirects the Apple captive
    network assistant, and otherwise serves the document root. */
module Root {
  import opened Basics
  import opened Mongoose
  import opened Redirect

  /** Header that lets any origin read the response. */
  const Cors := "Access-Control-Allow-Origin: *"
  /** Header announcing a pre-compressed body. */
  const GzipEncoding := "Content-Encoding: gzip"
  /** User-Agent marker of Apple's captive network assistant. */
  const CaptiveAgent := "CaptiveNetworkSupport"
  /** Content type the index file is served with. */
  const IndexMime := "text/html"

  /** What the root handler knows about the running portal: the host name
      it answers to, its index file, and the options it serves the document
      root with. */
  datatype Site = Site(hostname: string, indexFile: string, opts: ServeOpts)

  /** The Host header is present and names the portal somewhere inside it. */
  predicate HostMatches(req: Request, hostname: string) {
    req.host.Some? && Contains(req.host.value, hostname)
  }

  /** The URI names a pre-compressed file. */
  predicate WantsGzip(uri: string) {
    IsSuffix(".gz", uri)
  }

  /** The User-Agent header is present and marks the captive network
      assistant. */
  predicate FromCaptiveAgent(req: Request) {
    req.userAgent.Some? && Contains(req.userAgent.value, CaptiveAgent)
  }

  /** The options a request for the portal's own assets is served with: a
      `.gz` file gets the gzip header in place of the configured headers. */
  function AssetOpts(opts: ServeOpts, uri: string): ServeOpts {
    if WantsGzip(uri) then opts.(extraHeaders := Some(GzipEncoding)) else opts
  }

  /** The root handler's decision for one event. */
  function Respond(ev: Event, site: Site, sslCert: Option<string>): (r: HttpAction)
    ensures !ev.HttpRequest? <==> r == NoAction
    ensures r.ServeFile? <==> ev.HttpRequest? && HostMatches(ev.request, site.hostname) && ev.request.uri == "/"
    ensures r.ServeFile? ==> r.path == site.indexFile && r.mimeType == IndexMime && r.extraHeaders == Cors
    ensures r.SendRedirect? <==> ev.HttpRequest? && !HostMatches(ev.request, site.hostname) && FromCaptiveAgent(ev.request)
    ensures r.SendRedirect? ==> r == RedirectResponse(sslCert, site.hostname)
    ensures r.ServeHttp? ==> (
      && r.opts.documentRoot == site.opts.documentRoot
      && r.opts.customMimeTypes == site.opts.customMimeTypes
      && r.opts.indexFiles == site.opts.indexFiles)
    ensures r.ServeHttp? ==> (
      r.opts.extraHeaders ==
        if HostMatches(ev.request, site.hostname) && WantsGzip(ev.request.uri) then Some(GzipEncoding)
        else site.opts.extraHeaders)
    ensures !r.SendPage? && !r.Unhandled?
  {
    match ev
    case HttpRequest(req) =>
      if HostMatches(req, site.hostname) then
        var gzip := WantsGzip(req.uri);
        var uriRoot := req.uri == "/";
        if uriRoot then
          if gzip then ServeFile(site.indexFile, IndexMime, GzipEncoding)
          else ServeFile(site.indexFile, IndexMime, Cors)
        else ServeHttp(AssetOpts(site.opts, req.uri))
      else if FromCaptiveAgent(req) then
        RedirectHandler(ev, sslCert, site.hostname)
      else ServeHttp(site.opts)
    case _ => NoAction
  }

  /** The gzip variant of the index file is never chosen: a URI that is
      exactly `/` cannot end in `.gz`. */
  lemma GzipIndexUnreachable(ev: Event, site: Site, sslCert: Option<string>)
    ensures Respond(ev, site, sslCert) != ServeFile(site.indexFile, IndexMime, GzipEncoding)
  {
  }

  /** When the Host header names the portal, the User-Agent plays no part. */
  lemma UserAgentIgnoredWhenHostMatches(req: Request, userAgent: Option<string>, site: Site, sslCert: Option<string>)
    requires HostMatches(req, site.hostname)
    ensures Respond(HttpRequest(req.(userAgent := userAgent)), site, sslCert)
         == Respond(HttpRequest(req), site, sslCert)
  {
  }

  /** A request for the portal's own non-root asset is served from the
      document root, with the gzip header for `.gz` files and the configured
      headers otherwise. */
  lemma AssetServing(req: Request, site: Site, sslCert: Option<string>)
    requires HostMatches(req, site.hostname) && req.uri != "/"
    ensures Respond(HttpRequest(req), site, sslCert) == ServeHttp(AssetOpts(site.opts, req.uri))
    ensures WantsGzip(req.uri) ==> AssetOpts(site.opts, req.uri).extraHeaders == Some(GzipEncoding)
    ensures !WantsGzip(req.uri) ==> AssetOpts(site.opts, req.uri) == site.opts
  {
  }

  /** A request naming another host is never given the setup page: it is
      redirected when it comes from the captive network assistant and is
      served from the document root, unchanged options, otherwise. */
  lemma ForeignHost(req: Request, site: Site, sslCert: Option<string>)
    requires !HostMatches(req, site.hostname)
    ensures FromCaptiveAgent(req) ==> Respond(HttpRequest(req), site, sslCert).SendRedirect?
    ensures !FromCaptiveAgent(req) ==> Respond(HttpRequest(req), site, sslCert) == ServeHttp(site.opts)
  {
  }

  /** A Host header that merely contains the portal's name, such as the
      portal's name followed by another domain, is accepted as the portal. */
  lemma HostMatchIsSubstring(hostname: string, before: string, after: string, uri: string)
    ensures HostMatches(Request(uri, Some(before + hostname + after), None), hostname)
  {
    ContainsInfix(before, hostname, after);
  }
}
