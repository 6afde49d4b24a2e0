# Captive portal interception engine — a Dafny model

This project models the request-decision logic of a Mongoose OS captive-portal
library (`src/mgos_captive_portal.c`). A device running a Wi-Fi soft access point
uses it to convince every client that it is behind a captive portal. It also
delivers a small setup UI to the client. The logic has five parts:

- **Redirect target.** `get_redirect_url` builds `https://hostname` when a TLS
  certificate is configured and `http://hostname` otherwise. It formats the URL
  into a 256-byte static buffer, so the URL is cut at 255 bytes (characters in the model; see "## Left out").
- **Probe endpoints.** Nine fixed paths are registered, one per operating
  system's connectivity probe. Two answer with a 200 page that carries a meta
  refresh and a link to the redirect target. Seven answer with a 302 to it.
- **Root handler.** This is registered for `/`. A client that names the portal
  in its Host header gets the index file for `/`. It gets any other asset from
  the document root; a `.gz` asset has its extra headers replaced by
  `Content-Encoding: gzip`. Any other client gets a 302 if its User-Agent marks
  Apple's captive network assistant. Otherwise it is served from the document
  root.
- **DNS responder.** Every A question gets an answer: the access point's
  address, with TTL 10. Other questions get nothing. Every query gets one reply.
- **Lifecycle.** `start` is refused once the portal has started. Otherwise it
  copies the configuration, binds the DNS listener, and only on success installs
  the serving options, registers the ten endpoints and marks the portal
  started. `init` calls `start` when the portal is enabled and always reports
  success.

Everything Mongoose does is an opaque value in the model. An incoming event is
an `Event`. Each call into the library is an `HttpAction` or `DnsAction`: send
a redirect, send a page, serve a file, serve the document root, send a DNS
reply. The modules follow the parts above:

- `Basics`: optional values, bytes, and prefix/suffix/substring tests.
- `Mongoose`: the library-facing values.
- `Redirect`: the redirect URL, the redirect page and the two probe handlers.
- `Root`: the root handler.
- `Dns`: the DNS responder.
- `Routes`: the endpoint table and how a request path finds its endpoint.
- `Portal`: `start`, `init`, and how the started portal answers requests.
- `Scenarios`: the probes of the common client systems, end to end, against the
  default configuration.

The model follows two decisions about pointer arithmetic in the source:

- The root test at line 164 compares the bytes at the URI against `"/ HTTP"`,
  which reads past the URI into the request line. The model reads it as
  "the URI is exactly `/`". The two differ for a query string: for `GET /?a=1 HTTP/1.1`
  under the portal's Host, the URI is `/`, but the bytes at it read `/?a=1 HTTP`, so the
  program skips the index file and serves the document root at line 209, while the
  model serves the index file.
- The gzip test at line 162 compares the three bytes before the end of the URI
  with `.gz`. The model reads it as "the URI is at least three characters long
  and ends in `.gz`".

Under these readings, the branch at lines 177-180 cannot be taken: it serves a
gzip-encoded index file when the URI is `/` and ends in `.gz`.
`Root.GzipIndexUnreachable` proves this.

The redirect page is sent with `mg_send_head`. That call sends the status line,
`Content-Length` and the extra header `Cache-Control: no-cache`, and no
`Content-Type`. Only the unused `send_redirect_html_generated2` (lines 47-67)
sends `Content-Type: text/html`; the model follows the code that runs and sends
none.

## Model

| member | source | states |
|---|---|---|
| Redirect.Snprintf | src/mgos_captive_portal.c:41-43 | formatting into the 256-byte buffer keeps the longest prefix of the text that leaves room for the terminator |
| Redirect.RedirectUrl | src/mgos_captive_portal.c:40-45 | the URL is shorter than 256 characters; it starts with `https://` exactly when a certificate is configured and with `http://` exactly when none is; it always parses back, with that scheme and a host that is a prefix of the configured host name; a host name that fits is recovered exactly, and a longer one leaves a URL of exactly 255 characters |
| Redirect.RedirectPage | src/mgos_captive_portal.c:71-73 | the page is the fixed text plus two copies of the URL, so its length is the fixed overhead plus twice the URL's length |
| Redirect.RedirectPageNamesUrlTwice | src/mgos_captive_portal.c:72 | the page contains `content='0; url=URL'` and `href='URL'` |
| Redirect.UrlOfPage | src/mgos_captive_portal.c:71-73 | the inverse of the page format: a text gives a URL exactly when it is the redirect page of some URL, and the URL it gives makes exactly that page |
| Redirect.RedirectPageRoundTrip | src/mgos_captive_portal.c:71-73 | the URL is read back from every redirect page, so distinct URLs give distinct pages |
| Redirect.RedirectResponse | src/mgos_captive_portal.c:84-87 | the redirect is a 302 with no extra headers; its Location parses with the scheme the certificate setting chooses and a host that is a prefix of the portal's host name, and is exactly that host name when it fits; otherwise the Location is exactly 255 characters long |
| Redirect.RedirectPageResponse | src/mgos_captive_portal.c:69-77 | the page response has status 200, sends `Cache-Control: no-cache`, announces a length equal to the body's length (counted in characters, see "## Left out"), and its body leads to the redirect URL |
| Redirect.RedirectHandler | src/mgos_captive_portal.c:79-91 | only a request event is answered, and it is answered with the 302 |
| Redirect.RedirectPageHandler | src/mgos_captive_portal.c:93-105 | only a request event is answered, and it is answered with the redirect page |
| Root.Respond | src/mgos_captive_portal.c:142-210 | non-request events get nothing. The index file is served, as `text/html` with the CORS header, exactly when the Host names the portal and the URI is `/`. A 302 is sent exactly when the Host does not name the portal and the User-Agent has the assistant marker. Serving the document root keeps the configured root, MIME table and index files, and swaps the extra headers for the gzip header exactly for a `.gz` URI under a matching Host |
| Root.GzipIndexUnreachable | src/mgos_captive_portal.c:172-185 | the gzip-encoded index file is never served |
| Root.UserAgentIgnoredWhenHostMatches | src/mgos_captive_portal.c:157-190 | when the Host names the portal, changing the User-Agent changes nothing |
| Root.AssetServing | src/mgos_captive_portal.c:161-170 | a non-root request under a matching Host serves the document root; a `.gz` URI gets the gzip header in place of the CORS header, and any other URI keeps the configured headers |
| Root.ForeignHost | src/mgos_captive_portal.c:191-209 | under another Host, the assistant gets a redirect and everyone else gets the document root with unchanged options |
| Root.HostMatchIsSubstring | src/mgos_captive_portal.c:155-157 | any Host header that contains the portal's name, with anything before or after it, counts as naming the portal |
| Basics.ContainsIffOccurs | src/mgos_captive_portal.c:157 | the substring test used for Host and User-Agent succeeds exactly when the needle occurs at some position |
| Dns.AnswerFor | src/mgos_captive_portal.c:124-129 | an answer keeps the question's name, has TTL 10 and carries the four address bytes |
| Dns.AQuestions | src/mgos_captive_portal.c:118-130 | the questions that get answers are A questions of the query, and every A question of the query is among them |
| Dns.Records | src/mgos_captive_portal.c:118-130 | answer k belongs to question k, and there is one answer per question |
| Dns.AQuestionsAppend | src/mgos_captive_portal.c:118-130 | selecting the A questions of two concatenated sections selects them from each section in order |
| Dns.AnswersExtend | src/mgos_captive_portal.c:118-130 | one more question adds one answer, for that question, when it is an A question, and adds nothing otherwise |
| Dns.AnswerCount | src/mgos_captive_portal.c:118-130 | the number of answers equals the number of A questions |
| Dns.NoAQuestionNoAnswer | src/mgos_captive_portal.c:124-131 | a query with no A question gets a reply with no answers |
| Dns.AllAQuestionsAnswered | src/mgos_captive_portal.c:118-129 | a query of A questions only gets one answer per question, in question order |
| Dns.HandleDnsEvent | src/mgos_captive_portal.c:107-134 | exactly DNS message events get a reply. The reply echoes the id and the questions, and holds one answer per A question in order. Each answer has type A, TTL 10, four bytes of data, and the access point's address |
| Routes.Lookup | src/mgos_captive_portal.c:263-276 | a path is found exactly when some route has it, and the kind returned is that route's kind |
| Routes.LookupFindsRoute | src/mgos_captive_portal.c:263-276 | when paths are distinct, looking up a registered path gives that route's own kind |
| Routes.RouteTableDistinct | src/mgos_captive_portal.c:263-276 | ten endpoints are registered, and no path twice |
| Routes.RegisteredRoutesClassified | src/mgos_captive_portal.c:263-276 | every registered endpoint has the kind its path is classified as |
| Routes.ClassifiedPathsRegistered | src/mgos_captive_portal.c:263-276 | every classified path is registered |
| Routes.RouteTableMatchesClassification | src/mgos_captive_portal.c:263-276 | `/mobile/status.php` and `/generate_204` get the redirect page. The seven other probe paths get the 302. `/` gets the root handler. No other path has an endpoint of its own |
| Routes.Dispatch | src/mgos_captive_portal.c:259-263 | a path with its own endpoint reaches it; any other path reaches the `/` endpoint; a request reaches no endpoint only when neither its path nor `/` is registered |
| Routes.Serve | src/mgos_captive_portal.c:263-276 | a redirect-page endpoint answers a request with the redirect page, and a 302 endpoint answers it with the 302 |
| Portal.Start | src/mgos_captive_portal.c:212-281 | returns true exactly when not yet started and the bind succeeded. Once started it changes nothing. Otherwise the configuration is copied before the bind. A failed start changes nothing else. A successful one appends the ten endpoints in order, binds one listener, installs the portal's options and marks the portal started |
| Portal.Init | src/mgos_captive_portal.c:283-291 | always reports success, and starts the portal exactly when enabled |
| Portal.BootConsistent | src/mgos_captive_portal.c:31-38 | at boot the portal is not started, nothing is registered or bound, and the options are zero |
| Portal.StartKeepsConsistent | src/mgos_captive_portal.c:212-291 | start and init keep the portal consistent: when not started, nothing is bound or registered; when started, exactly one listener, the ten endpoints and the portal's options |
| Portal.SecondStartRefused | src/mgos_captive_portal.c:214-217 | a start after a successful start returns false and leaves the state as it was |
| Portal.FailedStartLeavesNoTrace | src/mgos_captive_portal.c:233-246 | a start whose bind failed has overwritten the copied configuration, but any later start behaves as if the failed one never happened |
| Portal.AtMostOneStart | src/mgos_captive_portal.c:212-281 | over any series of starts, at most one succeeds, none succeeds once started, and at most one DNS listener is ever bound |
| Portal.HandleHttp | src/mgos_captive_portal.c:263-276 | non-request events get nothing, and a request with no endpoint is left to the library |
| Portal.HandleDns | src/mgos_captive_portal.c:126-131 | only DNS messages get a reply; the reply is the reference reply built with the address copied from the configuration at start, so every answer carries that address as `inet_addr` converts it |
| Portal.NotStartedAnswersNothing | src/mgos_captive_portal.c:240-246 | before a successful start no request reaches any portal handler |
| Portal.StartedAnswersByClassification | src/mgos_captive_portal.c:263-276 | once started, probe paths get their response, built from the copied host name and the current certificate setting; every other path goes to the root handler |
| Portal.HtmlGzType | src/mgos_captive_portal.c:255 | a `.html.gz` file is typed `text/html; charset=utf-8` |
| Portal.JsGzType | src/mgos_captive_portal.c:255 | a `.js.gz` file is typed `application/javascript; charset=utf-8` |
| Portal.CssGzType | src/mgos_captive_portal.c:255 | a `.css.gz` file is typed `text/css; charset=utf-8` |
| Portal.PlainFileUntyped | src/mgos_captive_portal.c:255 | a file not ending in `.gz` gets no type from the custom table |
| Mongoose.MimeForFirst | src/mgos_captive_portal.c:255 | the first entry of the custom table whose extension ends the name gives its type, whatever later entries match |
| Mongoose.MimeFor | src/mgos_captive_portal.c:255 | a file gets a custom type exactly when some entry's extension ends its name, and the type is that entry's |
| Scenarios.Running | src/mgos_captive_portal.c:283-291 | booting with the portal enabled and a working bind leaves it started and consistent, with the default configuration copied |
| Scenarios.DefaultRedirectUrl | src/mgos_captive_portal.c:32 | with the default host name and no certificate, the redirect URL is `http://setup.device.local` |
| Scenarios.RedirectedProbes | src/mgos_captive_portal.c:270-273 | the iOS, Android 9 and Windows probes get a 302 to `http://setup.device.local` |
| Scenarios.Android8Probe | src/mgos_captive_portal.c:269 | the Android 8 probe gets a 200 page whose meta refresh names `http://setup.device.local` |
| Scenarios.PortalRoot | src/mgos_captive_portal.c:172-184 | `/` under the portal's own Host serves `index.html` as `text/html` with the CORS header |
| Scenarios.PortalGzipAsset | src/mgos_captive_portal.c:162-170 | `/app.js.gz` under the portal's own Host is served from the document root with `Content-Encoding: gzip` |
| Scenarios.PortalGzipAssetType | src/mgos_captive_portal.c:255 | `/app.js.gz` is typed as JavaScript |
| Scenarios.ForeignRoot | src/mgos_captive_portal.c:191-209 | `/` under Host `example.com`, without the assistant marker, gets the document root and not the index file |

## Left out

- Mongoose internals are outside the model. This covers DNS wire parsing and serialisation, and the name decompression at line 122, which only feeds a log line. It also covers the bytes `mg_serve_http`, `mg_http_serve_file`, `mg_http_send_redirect` and `mg_send_head` put on the wire, `mg_asprintf` buffer growth and allocation failure, and `mbuf`. Each call is one action value.
- The DNS answer's class and the library's cap on answers per reply are not modelled, because both are set inside `mg_dns_reply_record`. The id and question echo of the reply are modelled as the reply builder is documented to produce them.
- Routes.LookupFirst: first-registration-wins is the model's own lookup rule. Which of two registrations of one path the library picks is not modelled; the portal registers no path twice, so the rule never decides anything.
- Routes.Dispatch: a path is dispatched by exact match in the registered routes, falling back to the `/` endpoint. Mongoose picks the longest registered prefix instead. The two differ at least for a path that extends a probe path, such as `/ncsi.txt/x`, and for a probe path in other letter case, such as `/NCSI.TXT`, if the library compares paths without regard to case.
- Mongoose.MimeFor: matching is a case-sensitive suffix test over the custom table. The library also matches case-insensitively and falls back to its built-in types, which are not modelled.
- Sockets, the event loop, `mg_bind` and `mg_set_protocol_dns` are I/O, so the bind result is a boolean input. Line 241 hands the connection to the library before the NULL check at line 243. What the library does with a NULL connection is not modelled, and the model takes the failure path at lines 243-245 as reached.
- The ESP8266 DHCP "offer router" call at lines 221-224 is a platform call with no effect on the decisions.
- The configuration accessors are fields of `Portal.Config`. Each string is assumed present. The certificate is optional, since any non-NULL value selects `https`.
- `inet_addr` is a libc call. It is a parameter of `Portal.HandleDns` that turns the copied access-point address into four bytes (`Ipv4`); `Dns.HandleDnsEvent` takes those bytes directly.
- Logging (`LOG`, `http_msg_print`) is left out.
- The raw-pointer overreads are left out: `strstr` on the unterminated header values at lines 157 and 200, and the pointer arithmetic at lines 162 and 164. Only the intended substring, suffix and equality tests are modelled.
- Redirect.RedirectUrl: the 255-character cut stands for the program's 255-byte cut; they coincide for ASCII host names only.
- Redirect.RedirectPageResponse: the announced length is the body's length in characters, where the program announces bytes; they coincide for ASCII URLs only.
- Strings are modelled as sequences of characters, where the program counts bytes: the 256-byte cut at lines 41-43, the length `mg_asprintf` returns at line 71 and the `Content-Length` sent at line 74. The two agree only for ASCII text; a host name with a character that takes several UTF-8 bytes is cut at a different point, and its page announces a different length, in the program than in the model. C strings also cannot contain a NUL character; model strings are not restricted this way.
- `send_redirect_html_generated2` (lines 47-67) is never called and is not modelled.
- `include/mgos_captive_portal.h` only declares `mgos_captive_portal_start`.
