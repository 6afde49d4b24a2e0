/** The values the portal receives from, and hands to, the Mongoose
    networking library. The library itself is not modelled: an event it
    delivers is an `Event`, and each call the portal makes into it (send a
    redirect, send a page, serve a file, serve the document root, send a DNS
    reply) becomes one action value. */
module Mongoose {
  import opened Basics

  /** The parts of a parsed HTTP request the portal looks at: the URI path
      and the Host and User-Agent headers, each possibly absent. */
  datatype Request = Request(uri: string, host: Option<string>, userAgent: Option<string>)

  /** One question of a parsed DNS message: its (uncompressed) name and its
      record type. */
  datatype DnsQuestion = DnsQuestion(name: string, rtype: nat)

  /** A parsed DNS message: its transaction id and its question section. */
  datatype DnsMessage = DnsMessage(id: nat, questions: seq<DnsQuestion>)

  /** An event delivered to a handler: an HTTP request, a DNS message, or
      any other library event (connection opened, closed, polled, ...). */
  datatype Event =
    | HttpRequest(request: Request)
    | DnsQuery(message: DnsMessage)
    | OtherEvent(code: int)

  /** An IPv4 address in network byte order. */
  datatype Ipv4 = Ipv4(a: byte, b: byte, c: byte, d: byte) {
    /** The four bytes as they lie in memory, most significant first. */
    function Octets(): (r: seq<byte>)
      ensures |r| == 4
    {
      [a, b, c, d]
    }
  }

  /** One answer record of a DNS reply. */
  datatype DnsRecord = DnsRecord(name: string, rtype: nat, ttl: nat, rdata: seq<byte>)

  /** A DNS reply: the transaction id and question section of the query it
      answers, and its answer section. */
  datatype DnsReply = DnsReply(id: nat, questions: seq<DnsQuestion>, answers: seq<DnsRecord>)

  /** What a DNS handler does with one event. */
  datatype DnsAction = NoReply | SendReply(reply: DnsReply)

  /** One entry of a custom MIME-type table: files whose name ends in
      `extension` are served with `mimeType`. */
  datatype MimeEntry = MimeEntry(extension: string, mimeType: string)

  /** Options for serving the document root; a `None` field is a NULL
      pointer, the state a zero-filled options structure is in. */
  datatype ServeOpts = ServeOpts(
    documentRoot: Option<string>,
    customMimeTypes: seq<MimeEntry>,
    extraHeaders: Option<string>,
    indexFiles: Option<string>)

  /** A zero-filled options structure. */
  const ZeroOpts := ServeOpts(None, [], None, None)

  /** What an HTTP handler does with one event. */
  datatype HttpAction =
      /** The event was not a request: nothing is sent. */
    | NoAction
      /** No endpoint is registered for the request. */
    | Unhandled
      /** A redirect with a Location header. */
    | SendRedirect(status: int, location: string, extraHeaders: string)
      /** A response head announcing `contentLength` plus extra headers,
          followed by `body`. */
    | SendPage(status: int, contentLength: int, extraHeaders: string, body: string)
      /** One named file with an explicit content type and extra headers. */
    | ServeFile(path: string, mimeType: string, extraHeaders: string)
      /** The requested path, served from the document root with `opts`. */
    | ServeHttp(opts: ServeOpts)

  /** The content type the custom table gives a file name: the first entry
      whose extension ends the name. */
  function MimeFor(table: seq<MimeEntry>, path: string): (r: Option<string>)
    ensures r.Some? <==> exists k :: 0 <= k < |table| && IsSuffix(table[k].extension, path)
    ensures r.Some? ==> exists k :: 0 <= k < |table| && IsSuffix(table[k].extension, path) && r.value == table[k].mimeType
  {
    if |table| == 0 then None
    else if IsSuffix(table[0].extension, path) then Some(table[0].mimeType)
    else
      var rest := MimeFor(table[1..], path);
      assert forall k :: 1 <= k < |table| ==> table[k] == table[1..][k - 1];
      rest
  }

  /** The first entry whose extension ends the name decides its type, even
      when later entries match too. */
  lemma {:induction false} MimeForFirst(table: seq<MimeEntry>, path: string, k: int)
    requires 0 <= k < |table| && IsSuffix(table[k].extension, path)
    requires forall j :: 0 <= j < k ==> !IsSuffix(table[j].extension, path)
    ensures MimeFor(table, path) == Some(table[k].mimeType)
    decreases k
  {
    if k > 0 {
      assert !IsSuffix(table[0].extension, path);
      assert table[1..][k - 1] == table[k];
      assert forall j :: 0 <= j < k - 1 ==> table[1..][j] == table[j + 1];
      MimeForFirst(table[1..], path, k - 1);
    }
  }
}
