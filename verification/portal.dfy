/** The portal's lifecycle: the one-shot start that snapshots the
    configuration, binds the DNS responder and registers the HTTP routes,
    the boot-time initialiser, and how the running portal answers events. */
module Portal {
  import opened Basics
  import opened Mongoose
  import opened Routes
  import Dns
  import Root

  /** The configuration values the portal reads. */
  datatype Config = Config(
    apIp: string,
    hostname: string,
    indexFile: string,
    enable: bool,
    sslCert: Option<string>)

  /** The configuration values copied into the portal when it starts. */
  datatype Snapshot = Snapshot(apIp: string, hostname: string, indexFile: string)

  /** The portal's process-wide state: whether it has started, the copied
      configuration, the options the document root is served with, the
      registered endpoints and the number of DNS listeners bound. */
  datatype State = State(
    started: bool,
    snapshot: Snapshot,
    opts: ServeOpts,
    routes: seq<Route>,
    dnsListeners: nat)

  /** The copy in effect before any start. */
  const DefaultSnapshot := Snapshot("192.168.4.1", "setup.device.local", "index.html")

  /** The state at boot. */
  const Boot := State(false, DefaultSnapshot, ZeroOpts, [], 0)

  /** Content types for the pre-compressed assets. */
  const GzipMimeTypes: seq<MimeEntry> := [
    MimeEntry(".html.gz", "text/html; charset=utf-8"),
    MimeEntry(".js.gz", "application/javascript; charset=utf-8"),
    MimeEntry(".css.gz", "text/css; charset=utf-8")
  ]

  /** The options installed by a successful start. */
  const PortalOpts := ServeOpts(Some("/"), GzipMimeTypes, Some(Root.Cors), None)

  function SnapshotOf(cfg: Config): Snapshot {
    Snapshot(cfg.apIp, cfg.hostname, cfg.indexFile)
  }

  /** The outcome of a start: the new state and the value returned. */
  datatype StartResult = StartResult(state: State, ok: bool)

  /** `start`: refused once started; otherwise the configuration is copied
      first, and only a successful bind goes on to install the options,
      register the endpoints and mark the portal started. */
  function Start(s: State, cfg: Config, bindOk: bool): (r: StartResult)
    ensures r.ok <==> !s.started && bindOk
    ensures s.started ==> r.state == s
    ensures !s.started ==> r.state.snapshot == SnapshotOf(cfg)
    ensures !r.ok ==> r.state.(snapshot := s.snapshot) == s
    ensures r.ok ==> r.state.started && r.state.routes == s.routes + RouteTable
                     && r.state.dnsListeners == s.dnsListeners + 1 && r.state.opts == PortalOpts
  {
    if s.started then StartResult(s, false)
    else
      var copied := s.(snapshot := SnapshotOf(cfg));
      if !bindOk then StartResult(copied, false)
      else
        StartResult(copied.(dnsListeners := copied.dnsListeners + 1,
                            opts := PortalOpts,
                            routes := copied.routes + RouteTable,
                            started := true), true)
  }

  /** The boot-time initialiser: starts the portal when enabled, and reports
      success whatever the start returned. */
  function Init(s: State, cfg: Config, bindOk: bool): (r: StartResult)
    ensures r.ok
    ensures !cfg.enable ==> r.state == s
    ensures cfg.enable ==> r.state == Start(s, cfg, bindOk).state
  {
    if cfg.enable then StartResult(Start(s, cfg, bindOk).state, true)
    else StartResult(s, true)
  }

  /** The states the portal can be in: before a successful start nothing is
      bound or registered and the options are zero; after it, exactly one
      DNS listener, the ten endpoints and the portal's options. */
  predicate Consistent(s: State) {
    if s.started then s.routes == RouteTable && s.opts == PortalOpts && s.dnsListeners == 1
    else s.routes == [] && s.opts == ZeroOpts && s.dnsListeners == 0
  }

  lemma BootConsistent()
    ensures Consistent(Boot) && !Boot.started
  {
  }

  /** Start and init keep the portal consistent. */
  lemma StartKeepsConsistent(s: State, cfg: Config, bindOk: bool)
    requires Consistent(s)
    ensures Consistent(Start(s, cfg, bindOk).state)
    ensures Consistent(Init(s, cfg, bindOk).state)
  {
  }

  /** A second start after a successful one returns false and changes
      nothing: starting twice is observably starting once. */
  lemma SecondStartRefused(s: State, cfg1: Config, b1: bool, cfg2: Config, b2: bool)
    requires Start(s, cfg1, b1).ok
    ensures !Start(Start(s, cfg1, b1).state, cfg2, b2).ok
    ensures Start(Start(s, cfg1, b1).state, cfg2, b2).state == Start(s, cfg1, b1).state
  {
  }

  /** A start whose bind failed leaves a changed copy of the configuration
      behind, but a later start copies it afresh, so the failure leaves no
      trace in anything the later start does. */
  lemma FailedStartLeavesNoTrace(s: State, cfg1: Config, cfg2: Config, bindOk: bool)
    requires !s.started
    ensures Start(Start(s, cfg1, false).state, cfg2, bindOk) == Start(s, cfg2, bindOk)
  {
  }

  /** One call to start: the configuration read and whether the bind worked. */
  datatype Attempt = Attempt(cfg: Config, bindOk: bool)

  /** The state after a series of starts, and how many of them succeeded. */
  datatype Run = Run(state: State, successes: nat)

  function Replay(s: State, attempts: seq<Attempt>): Run
    decreases |attempts|
  {
    if |attempts| == 0 then Run(s, 0)
    else
      var r := Start(s, attempts[0].cfg, attempts[0].bindOk);
      var rest := Replay(r.state, attempts[1..]);
      Run(rest.state, rest.successes + (if r.ok then 1 else 0))
  }

  /** However often start is called, at most one call succeeds, none does
      once the portal has started, the portal stays consistent, and so at
      most one DNS listener is ever bound. */
  lemma {:induction false} AtMostOneStart(s: State, attempts: seq<Attempt>)
    requires Consistent(s)
    ensures Consistent(Replay(s, attempts).state)
    ensures Replay(s, attempts).successes <= (if s.started then 0 else 1)
    ensures Replay(s, attempts).state.started <==> s.started || Replay(s, attempts).successes == 1
    ensures Replay(s, attempts).state.dnsListeners <= 1
    decreases |attempts|
  {
    if |attempts| > 0 {
      var r := Start(s, attempts[0].cfg, attempts[0].bindOk);
      StartKeepsConsistent(s, attempts[0].cfg, attempts[0].bindOk);
      AtMostOneStart(r.state, attempts[1..]);
    }
  }

  /** What the root handler sees of the portal. */
  function SiteOf(s: State): Root.Site {
    Root.Site(s.snapshot.hostname, s.snapshot.indexFile, s.opts)
  }

  /** How the portal answers an HTTP event: the endpoint the request path
      reaches runs, with the copied host name and index file and the
      certificate setting as it is now. */
  function HandleHttp(s: State, cfg: Config, ev: Event): (r: HttpAction)
    ensures !ev.HttpRequest? ==> r == NoAction
    ensures ev.HttpRequest? && Dispatch(s.routes, ev.request.uri).None? ==> r == Unhandled
  {
    match ev
    case HttpRequest(req) =>
      (match Dispatch(s.routes, req.uri)
       case None => Unhandled
       case Some(kind) => Serve(kind, ev, SiteOf(s), cfg.sslCert))
    case _ => NoAction
  }

  /** How the bound DNS listener answers an event: the address in every
      answer is the copied access-point address, as `inetAddr` (the C
      library's `inet_addr`, not modelled) converts it. */
  method HandleDns(s: State, ev: Event, inetAddr: string -> Ipv4) returns (action: DnsAction)
    ensures ev.DnsQuery? <==> action.SendReply?
    ensures action.SendReply? ==> action.reply == Dns.ReplyTo(ev.message, inetAddr(s.snapshot.apIp))
    ensures action.SendReply? ==> forall k :: 0 <= k < |action.reply.answers| ==>
              action.reply.answers[k].rdata == inetAddr(s.snapshot.apIp).Octets()
  {
    action := Dns.HandleDnsEvent(ev, inetAddr(s.snapshot.apIp));
  }

  /** Before a successful start no endpoint exists, so no request is
      answered by the portal. */
  lemma NotStartedAnswersNothing(s: State, cfg: Config, req: Request)
    requires Consistent(s) && !s.started
    ensures HandleHttp(s, cfg, HttpRequest(req)) == Unhandled
  {
  }

  /** Once started, every request is answered as its path's classification
      says: probe paths with their response, every other path by the root
      handler. */
  lemma {:induction false} StartedAnswersByClassification(s: State, cfg: Config, req: Request)
    requires Consistent(s) && s.started
    ensures Classify(req.uri) == Some(ServeRedirectHtml) ==>
      HandleHttp(s, cfg, HttpRequest(req)) == Redirect.RedirectPageResponse(cfg.sslCert, s.snapshot.hostname)
    ensures Classify(req.uri) == Some(Redirect302) ==>
      HandleHttp(s, cfg, HttpRequest(req)) == Redirect.RedirectResponse(cfg.sslCert, s.snapshot.hostname)
    ensures Classify(req.uri) !in {Some(ServeRedirectHtml), Some(Redirect302)} ==>
      HandleHttp(s, cfg, HttpRequest(req)) == Root.Respond(HttpRequest(req), SiteOf(s), cfg.sslCert)
  {
    RouteTableMatchesClassification(req.uri);
    RouteTableMatchesClassification("/");
  }

  /** A `.html.gz` file is served as HTML. */
  lemma HtmlGzType(path: string)
    requires IsSuffix(".html.gz", path)
    ensures MimeFor(GzipMimeTypes, path) == Some("text/html; charset=utf-8")
  {
  }

  /** A `.js.gz` file is served as JavaScript. */
  lemma JsGzType(path: string)
    requires IsSuffix(".js.gz", path)
    ensures MimeFor(GzipMimeTypes, path) == Some("application/javascript; charset=utf-8")
  {
    SuffixChar(".js.gz", path, 2);
    if IsSuffix(".html.gz", path) {
      SuffixChar(".html.gz", path, 4);
      assert false;
    }
    assert GzipMimeTypes[1..][0] == MimeEntry(".js.gz", "application/javascript; charset=utf-8");
  }

  /** A `.css.gz` file is served as CSS. */
  lemma CssGzType(path: string)
    requires IsSuffix(".css.gz", path)
    ensures MimeFor(GzipMimeTypes, path) == Some("text/css; charset=utf-8")
  {
    SuffixChar(".css.gz", path, 3);
    SuffixChar(".css.gz", path, 1);
    if IsSuffix(".html.gz", path) {
      SuffixChar(".html.gz", path, 4);
      assert false;
    }
    if IsSuffix(".js.gz", path) {
      SuffixChar(".js.gz", path, 0);
      assert false;
    }
    assert GzipMimeTypes[1..][1..][0] == MimeEntry(".css.gz", "text/css; charset=utf-8");
  }

  /** A file that is not pre-compressed gets no type from the custom table. */
  lemma PlainFileUntyped(path: string)
    requires !IsSuffix(".gz", path)
    ensures MimeFor(GzipMimeTypes, path).None?
  {
    if IsSuffix(".html.gz", path) {
      SuffixOfSuffix(".gz", ".html.gz", path);
      assert false;
    }
    if IsSuffix(".js.gz", path) {
      SuffixOfSuffix(".gz", ".js.gz", path);
      assert false;
    }
    if IsSuffix(".css.gz", path) {
      SuffixOfSuffix(".gz", ".css.gz", path);
      assert false;
    }
    var t1 := GzipMimeTypes[1..];
    var t2 := t1[1..];
    assert t1[0].extension == ".js.gz" && t2[0].extension == ".css.gz" && t2[1..] == [];
  }
}
