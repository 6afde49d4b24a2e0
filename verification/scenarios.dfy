/** End-to-end behaviour of a portal started with the default configuration
    and no certificate, for the probes of the common client systems. */
module Scenarios {
  import opened Basics
  import opened Mongoose
  import opened Portal
  import Redirect
  import Root
  import Routes

  /** The default configuration, enabled, without a certificate. */
  const DefaultConfig := Config("192.168.4.1", "setup.device.local", "index.html", true, None)

  /** The portal after a successful boot-time start. */
  function Running(): (s: State)
    ensures s.started && Consistent(s) && s.snapshot == DefaultSnapshot
  {
    Init(Boot, DefaultConfig, true).state
  }

  const PortalUrl := "http://setup.device.local"

  /** The redirect URL of the default portal. */
  lemma DefaultRedirectUrl()
    ensures Redirect.RedirectUrl(None, "setup.device.local") == PortalUrl
  {
    assert Redirect.Scheme(None) + "://" + "setup.device.local" == PortalUrl;
  }

  /** A probe request for `path` with the given Host header. */
  function Probe(path: string, host: string): Event {
    HttpRequest(Request(path, Some(host), None))
  }

  /** iOS, Android 9 and Windows probes are sent to the portal by a 302. */
  lemma RedirectedProbes()
    ensures HandleHttp(Running(), DefaultConfig, Probe("/hotspot-detect.html", "captive.apple.com"))
         == SendRedirect(302, PortalUrl, "")
    ensures HandleHttp(Running(), DefaultConfig, Probe("/gen_204", "connectivitycheck.gstatic.com"))
         == SendRedirect(302, PortalUrl, "")
    ensures HandleHttp(Running(), DefaultConfig, Probe("/ncsi.txt", "www.msftconnecttest.com"))
         == SendRedirect(302, PortalUrl, "")
  {
    DefaultRedirectUrl();
    StartedAnswersByClassification(Running(), DefaultConfig, Request("/hotspot-detect.html", Some("captive.apple.com"), None));
    StartedAnswersByClassification(Running(), DefaultConfig, Request("/gen_204", Some("connectivitycheck.gstatic.com"), None));
    StartedAnswersByClassification(Running(), DefaultConfig, Request("/ncsi.txt", Some("www.msftconnecttest.com"), None));
  }

  /** The Android 8 probe gets a 200 page that refreshes to the portal. */
  lemma Android8Probe()
    ensures HandleHttp(Running(), DefaultConfig, Probe("/generate_204", "connectivitycheck.gstatic.com")).SendPage?
    ensures HandleHttp(Running(), DefaultConfig, Probe("/generate_204", "connectivitycheck.gstatic.com")).status == 200
    ensures Contains(HandleHttp(Running(), DefaultConfig, Probe("/generate_204", "connectivitycheck.gstatic.com")).body,
                     "content='0; url=" + PortalUrl + "'")
  {
    DefaultRedirectUrl();
    StartedAnswersByClassification(Running(), DefaultConfig, Request("/generate_204", Some("connectivitycheck.gstatic.com"), None));
    Redirect.RedirectPageNamesUrlTwice(PortalUrl);
  }

  /** Addressed by name, the portal's root serves the index file as HTML. */
  lemma PortalRoot()
    ensures HandleHttp(Running(), DefaultConfig, Probe("/", "setup.device.local"))
         == ServeFile("index.html", "text/html", Root.Cors)
  {
    var req := Request("/", Some("setup.device.local"), None);
    StartedAnswersByClassification(Running(), DefaultConfig, req);
    ContainsSelf("setup.device.local");
    assert Root.HostMatches(req, "setup.device.local");
  }

  /** Addressed by name, a compressed script is served from the document
      root with the gzip header in place of the CORS header. */
  lemma PortalGzipAsset()
    ensures HandleHttp(Running(), DefaultConfig, Probe("/app.js.gz", "setup.device.local"))
         == ServeHttp(PortalOpts.(extraHeaders := Some(Root.GzipEncoding)))
  {
    var req := Request("/app.js.gz", Some("setup.device.local"), None);
    var s := Running();
    assert Routes.Classify(req.uri).None?;
    StartedAnswersByClassification(s, DefaultConfig, req);
    assert HandleHttp(s, DefaultConfig, HttpRequest(req)) == Root.Respond(HttpRequest(req), SiteOf(s), None);
    ContainsSelf("setup.device.local");
    assert Root.WantsGzip("/app.js.gz") by {
      assert "/app.js.gz"[7..] == ".gz";
    }
    Root.AssetServing(req, SiteOf(s), None);
    assert Root.AssetOpts(PortalOpts, req.uri) == PortalOpts.(extraHeaders := Some(Root.GzipEncoding));
  }

  /** The compressed script is announced as JavaScript. */
  lemma PortalGzipAssetType()
    ensures MimeFor(PortalOpts.customMimeTypes, "/app.js.gz") == Some("application/javascript; charset=utf-8")
  {
    assert IsSuffix(".js.gz", "/app.js.gz") by {
      assert "/app.js.gz"[4..] == ".js.gz";
    }
    JsGzType("/app.js.gz");
  }

  /** The root requested under another host name, without the captive
      network assistant, is not given the index file. */
  lemma ForeignRoot()
    ensures HandleHttp(Running(), DefaultConfig, Probe("/", "example.com")) == ServeHttp(PortalOpts)
  {
    var req := Request("/", Some("example.com"), None);
    StartedAnswersByClassification(Running(), DefaultConfig, req);
    LongerNeedleAbsent("example.com", "setup.device.local");
  }
}
