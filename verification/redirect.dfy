/** The redirect target of the portal and the two responses that send a
    client there: a 302 with a Location header, and a 200 page whose meta
    refresh and link both point at the target. */
module Redirect {
  import opened Basics
  import opened Mongoose

  /** Size of the static buffer the redirect URL is formatted into. */
  const UrlBufferSize: nat := 256

  /** Extra header sent with the redirect page. */
  const NoCache := "Cache-Control: no-cache"

  /** `https` when a TLS certificate is configured, `http` otherwise. */
  function Scheme(sslCert: Option<string>): string {
    if sslCert.Some? then "https" else "http"
  }

  /** `snprintf` into a buffer of `size` bytes: the longest prefix of `s`
      that leaves room for the terminator. */
  function Snprintf(s: string, size: nat): (r: string)
    requires size >= 1
    ensures IsPrefix(r, s)
    ensures |r| == if |s| < size then |s| else size - 1
  {
    if |s| < size then s else s[..size - 1]
  }

  /** The longest host name that survives formatting whole. */
  function HostRoom(sslCert: Option<string>): nat {
    UrlBufferSize - 1 - |Scheme(sslCert) + "://"|
  }

  /** The pieces of a redirect URL: whether it is secure, and its host. */
  datatype UrlParts = UrlParts(secure: bool, host: string)

  /** Splits a URL back into its scheme and host; `None` for a URL with
      neither scheme. */
  function ParseRedirectUrl(url: string): Option<UrlParts> {
    if IsPrefix("https://", url) then Some(UrlParts(true, url[8..]))
    else if IsPrefix("http://", url) then Some(UrlParts(false, url[7..]))
    else None
  }

  /** `scheme://hostname`, cut to what fits the 256-byte buffer. The URL
      always parses back: its scheme is the one the certificate setting
      chooses, and its host is the configured host name, whole when it
      fits and cut to a prefix of it otherwise. */
  function RedirectUrl(sslCert: Option<string>, hostname: string): (r: string)
    ensures |r| < UrlBufferSize
    ensures IsPrefix("https://", r) <==> sslCert.Some?
    ensures IsPrefix("http://", r) <==> sslCert.None?
    ensures ParseRedirectUrl(r).Some? && ParseRedirectUrl(r).value.secure == sslCert.Some?
    ensures IsPrefix(ParseRedirectUrl(r).value.host, hostname)
    ensures |hostname| <= HostRoom(sslCert) ==> ParseRedirectUrl(r) == Some(UrlParts(sslCert.Some?, hostname))
    ensures |hostname| > HostRoom(sslCert) ==> |r| == UrlBufferSize - 1
  {
    var full := Scheme(sslCert) + "://" + hostname;
    var n := |Scheme(sslCert) + "://"|;
    var r := Snprintf(full, UrlBufferSize);
    assert full[n..] == hostname;
    assert r == full[..|r|];
    assert r[n..] == hostname[..|r| - n];
    if sslCert.Some? then
      assert r[..8] == full[..8] == "https://";
      assert r[..7] == full[..7];
      r
    else
      assert r[..7] == full[..7] == "http://";
      assert r[4] == ':';
      r
  }

  /** The redirect page is
        <head><meta http-equiv='refresh' content='0; url=URL'></head><body><p>Click <a href='URL'>here</a> to login.</p></body>
      followed by CR LF, cut here into its fixed pieces and its two
      URL-bearing attributes. */
  const PageOpen := "<head><meta http-equiv='refresh' "
  const RefreshKey := "content='0; url="
  const PageMiddle := "></head><body><p>Click <a "
  const LinkKey := "href='"
  const PageClose := ">here</a> to login.</p></body>\r\n"

  /** The meta-refresh attribute naming `url`. */
  function RefreshAttr(url: string): string {
    RefreshKey + url + "'"
  }

  /** The link attribute naming `url`. */
  function LinkAttr(url: string): string {
    LinkKey + url + "'"
  }

  /** Length of the page apart from the two copies of the URL. */
  const PageOverhead: nat := |PageOpen| + |RefreshKey| + |PageMiddle| + |LinkKey| + |PageClose| + 2

  /** The redirect page: a meta refresh to `url` and a link to `url`. */
  function RedirectPage(url: string): (body: string)
    ensures |body| == PageOverhead + 2 * |url|
  {
    PageOpen + RefreshAttr(url) + PageMiddle + LinkAttr(url) + PageClose
  }

  /** The page's meta refresh and its link both name the URL. */
  lemma RedirectPageNamesUrlTwice(url: string)
    ensures Contains(RedirectPage(url), "content='0; url=" + url + "'")
    ensures Contains(RedirectPage(url), "href='" + url + "'")
  {
    var body := RedirectPage(url);
    assert body == PageOpen + RefreshAttr(url) + (PageMiddle + LinkAttr(url) + PageClose);
    ContainsInfix(PageOpen, RefreshAttr(url), PageMiddle + LinkAttr(url) + PageClose);
    assert body == (PageOpen + RefreshAttr(url) + PageMiddle) + LinkAttr(url) + PageClose;
    ContainsInfix(PageOpen + RefreshAttr(url) + PageMiddle, LinkAttr(url), PageClose);
  }

  /** Where the first copy of the URL starts. */
  const UrlStart: nat := |PageOpen| + |RefreshKey|

  /** The first copy of the URL sits at a fixed position of the page. */
  lemma UrlInPage(url: string)
    ensures RedirectPage(url)[UrlStart..UrlStart + |url|] == url
  {
    var body := RedirectPage(url);
    assert body == (PageOpen + RefreshKey) + url + ("'" + PageMiddle + LinkAttr(url) + PageClose);
  }

  /** Reads the URL back out of a redirect page: a text gives a URL exactly
      when it is the redirect page of some URL, and then the URL it gives
      makes that page. */
  function UrlOfPage(body: string): (r: Option<string>)
    ensures r.Some? ==> RedirectPage(r.value) == body
    ensures r.Some? <==> exists u :: RedirectPage(u) == body
  {
    if |body| < PageOverhead || (|body| - PageOverhead) % 2 != 0 then None
    else
      var url := body[UrlStart..UrlStart + (|body| - PageOverhead) / 2];
      if RedirectPage(url) == body then Some(url)
      else
        assert forall u :: RedirectPage(u) == body ==> u == url by {
          forall u | RedirectPage(u) == body
            ensures u == url
          {
            UrlInPage(u);
          }
        }
        None
  }

  /** Every redirect page gives back the URL it was made from; so distinct
      URLs give distinct pages. */
  lemma {:induction false} RedirectPageRoundTrip(url: string)
    ensures UrlOfPage(RedirectPage(url)) == Some(url)
  {
    UrlInPage(url);
  }

  /** The 302 a probe gets: Location is the redirect URL, with no extra
      headers, so it names the portal's host under the chosen scheme. */
  function RedirectResponse(sslCert: Option<string>, hostname: string): (r: HttpAction)
    ensures r.SendRedirect? && r.status == 302 && r.extraHeaders == ""
    ensures ParseRedirectUrl(r.location).Some?
    ensures ParseRedirectUrl(r.location).value.secure <==> sslCert.Some?
    ensures IsPrefix(ParseRedirectUrl(r.location).value.host, hostname)
    ensures |hostname| <= HostRoom(sslCert) ==> ParseRedirectUrl(r.location) == Some(UrlParts(sslCert.Some?, hostname))
    ensures |hostname| > HostRoom(sslCert) ==> |r.location| == UrlBufferSize - 1
  {
    SendRedirect(302, RedirectUrl(sslCert, hostname), "")
  }

  /** The 200 page a probe gets: its announced length is the length of the
      body, it must not be cached, and the body leads to the redirect URL. */
  function RedirectPageResponse(sslCert: Option<string>, hostname: string): (r: HttpAction)
    ensures r.SendPage? && r.status == 200 && r.extraHeaders == NoCache
    ensures r.contentLength == |r.body|
    ensures UrlOfPage(r.body) == Some(RedirectUrl(sslCert, hostname))
  {
    var url := RedirectUrl(sslCert, hostname);
    RedirectPageRoundTrip(url);
    var body := RedirectPage(url);
    SendPage(200, |body|, NoCache, body)
  }

  /** The 302 probe handler: only a request event gets the redirect. */
  function RedirectHandler(ev: Event, sslCert: Option<string>, hostname: string): (r: HttpAction)
    ensures ev.HttpRequest? <==> r.SendRedirect?
    ensures !ev.HttpRequest? ==> r == NoAction
    ensures r.SendRedirect? ==> r == RedirectResponse(sslCert, hostname)
  {
    if ev.HttpRequest? then RedirectResponse(sslCert, hostname) else NoAction
  }

  /** The redirect-page probe handler: only a request event gets the page. */
  function RedirectPageHandler(ev: Event, sslCert: Option<string>, hostname: string): (r: HttpAction)
    ensures ev.HttpRequest? <==> r.SendPage?
    ensures !ev.HttpRequest? ==> r == NoAction
    ensures r.SendPage? ==> r == RedirectPageResponse(sslCert, hostname)
  {
    if ev.HttpRequest? then RedirectPageResponse(sslCert, hostname) else NoAction
  }
}
