/**
 * The download proxy: one HTTP handler that fetches a torrent file from the
 * single allowed tracker endpoint and streams it back.
 *
 * The parsed request path and `url` parameter, the result of parsing the target
 * URL, and the outcome of the upstream fetch (status, two headers, and the body
 * as a finite sequence of chunks that may end in a read error) are inputs. Each
 * JavaScript exception is an error message carried back as a value.
 */
module DlProxy {
  import opened Common
  import Text

  newtype byte = b: int | 0 <= b < 256

  const Route := "/torrent"
  const AllowedHost := "rutracker.org"
  const AllowedPath := "/forum/dl.php"
  const DefaultContentType := "application/x-bittorrent"
  const DefaultDisposition := "attachment; filename=\"download.torrent\""
  const JsonContentType := "application/json; charset=utf-8"
  /** The message of Node's ERR_HTTP_HEADERS_SENT, thrown by a second `writeHead`. */
  const HeadersSent := "Cannot write headers after they are sent to the client"

  // ====================================================================
  // inputs
  // ====================================================================

  /**
   * The incoming request after `new URL(req.url, "http://localhost")`: a parse failure
   * (its message), or the pathname and the `url` query parameter.
   */
  datatype Request = Unparsable(message: string) | Request(pathname: string, url: Option<string>)

  /** `new URL(target)`: a parse failure (its message) or the parsed hostname and pathname. */
  datatype TargetUrl = Invalid(message: string) | Parsed(hostname: string, pathname: string)

  /** The upstream body: the chunks `read()` yields before `done`, or before a read fails with `failure`. */
  datatype Stream = Stream(chunks: seq<seq<byte>>, failure: Option<string>)

  /** The upstream response: status, the two headers read (`null` is `None`) and the body (`null` is `None`). */
  datatype Upstream = Upstream(status: nat, contentType: Option<string>, contentDisposition: Option<string>, body: Option<Stream>)

  /** The outcome of `fetch(target, …)`: a rejection with its message, or a response. */
  datatype Fetch = FetchFailed(message: string) | Fetched(upstream: Upstream)

  // ====================================================================
  // the response object
  // ====================================================================

  datatype Head = Head(status: nat, headers: seq<(string, string)>)

  /** What `end` is given: nothing, or the JSON text of `{ ok: false, error }` (see `PayloadText`). */
  datatype Payload = NoPayload | ErrorJson(error: string)

  /**
   * What the handler has done to its response: the head written (if any), the
   * bytes written, what `end` was given (if called) and how often `end` was called.
   */
  datatype Sent = Sent(head: Option<Head>, data: seq<byte>, ended: Option<Payload>, endCalls: nat)

  const Untouched := Sent(None, [], None, 0)

  /** Node's `http.ServerResponse`, reduced to what the handler uses. */
  class ServerResponse {
    var head: Option<Head>
    var data: seq<byte>
    var ended: Option<Payload>
    var endCalls: nat

    function State(): Sent
      reads this
    {
      Sent(head, data, ended, endCalls)
    }

    constructor ()
      ensures State() == Untouched
    {
      head, data, ended, endCalls := None, [], None, 0;
    }

    /** `writeHead`: fails once a head has been written. */
    method WriteHead(status: nat, headers: seq<(string, string)>) returns (thrown: Option<string>)
      modifies this
      ensures old(head).Some? ==> thrown == Some(HeadersSent) && State() == old(State())
      ensures old(head).None? ==> thrown == None && State() == old(State()).(head := Some(Head(status, headers)))
    {
      if head.Some? {
        return Some(HeadersSent);
      }
      head := Some(Head(status, headers));
      thrown := None;
    }

    method Write(chunk: seq<byte>)
      modifies this
      ensures State() == old(State()).(data := old(data) + chunk)
    {
      data := data + chunk;
    }

    method End(payload: Payload)
      modifies this
      ensures State() == old(State()).(ended := Some(payload), endCalls := old(endCalls) + 1)
    {
      ended := Some(payload);
      endCalls := endCalls + 1;
    }
  }

  // ====================================================================
  // JSON error bodies
  // ====================================================================

  function HexDigit(d: nat): (c: char)
    requires d < 16
  {
    if d < 10 then ('0' as int + d) as char else ('a' as int + d - 10) as char
  }

  function HexValue(c: char): Option<nat> {
    if '0' <= c <= '9' then Some(c as int - '0' as int)
    else if 'a' <= c <= 'f' then Some(c as int - 'a' as int + 10)
    else if 'A' <= c <= 'F' then Some(c as int - 'A' as int + 10)
    else None
  }

  /** The escape `JSON.stringify` writes for one character of a string. */
  function QuoteChar(c: char): string {
    if c == '"' then "\\\""
    else if c == '\\' then "\\\\"
    else if c == '\U{0008}' then "\\b"
    else if c == '\t' then "\\t"
    else if c == '\n' then "\\n"
    else if c == '\U{000C}' then "\\f"
    else if c == '\r' then "\\r"
    else if c < ' ' then "\\u00" + [HexDigit(c as int / 16), HexDigit(c as int % 16)]
    else [c]
  }

  /** The characters between the quotes of `JSON.stringify(s)`. */
  function QuoteBody(s: string): string {
    if s == [] then "" else QuoteChar(s[0]) + QuoteBody(s[1..])
  }

  /** `JSON.stringify({ ok: false, error: msg })`. */
  function ErrorBody(msg: string): string {
    "{\"ok\":false,\"error\":\"" + QuoteBody(msg) + "\"}"
  }

  function ShortEscape(e: char): Option<char> {
    if e == '"' then Some('"')
    else if e == '\\' then Some('\\')
    else if e == '/' then Some('/')
    else if e == 'b' then Some('\U{0008}')
    else if e == 't' then Some('\t')
    else if e == 'n' then Some('\n')
    else if e == 'f' then Some('\U{000C}')
    else if e == 'r' then Some('\r')
    else None
  }

  function Prepend(c: char, r: Option<string>): Option<string> {
    if r.Some? then Some([c] + r.value) else None
  }

  /** Reads the characters of a JSON string literal, between its quotes; `None` when they are not well formed. */
  function Unquote(t: string): Option<string>
    decreases |t|
  {
    if t == [] then Some([])
    else if t[0] == '\\' then
      if |t| < 2 then None
      else if t[1] == 'u' then
        if |t| < 6 then None
        else
          var h := [HexValue(t[2]), HexValue(t[3]), HexValue(t[4]), HexValue(t[5])];
          if h[0].None? || h[1].None? || h[2].None? || h[3].None? then None
          else
            var v := ((h[0].value * 16 + h[1].value) * 16 + h[2].value) * 16 + h[3].value;
            if 0xD800 <= v <= 0xDFFF then None else Prepend(v as char, Unquote(t[6..]))
      else if ShortEscape(t[1]).None? then None
      else Prepend(ShortEscape(t[1]).value, Unquote(t[2..]))
    else if t[0] == '"' || t[0] < ' ' then None
    else Prepend(t[0], Unquote(t[1..]))
  }

  const ErrorPrefix := "{\"ok\":false,\"error\":\""

  /** The text `end` writes. */
  function PayloadText(p: Payload): string {
    if p.NoPayload? then "" else ErrorBody(p.error)
  }

  /** The `error` field of an error body, read back by a client. */
  function ReadErrorField(text: string): Option<string> {
    if |text| >= |ErrorPrefix| + 2 && text[..|ErrorPrefix|] == ErrorPrefix && text[|text| - 2..] == "\"}"
    then Unquote(text[|ErrorPrefix|..|text| - 2])
    else None
  }

  lemma UnquoteChar(c: char, r: string)
    ensures Unquote(QuoteChar(c) + r) == Prepend(c, Unquote(r))
  {
    var t := QuoteChar(c) + r;
    if c < ' ' && c != '\U{0008}' && c != '\t' && c != '\n' && c != '\U{000C}' && c != '\r' {
      var hi, lo := c as int / 16, c as int % 16;
      assert t[..6] == ['\\', 'u', '0', '0', HexDigit(hi), HexDigit(lo)];
      assert HexValue(HexDigit(hi)) == Some(hi) && HexValue(HexDigit(lo)) == Some(lo);
      assert t[6..] == r;
    } else if c == '"' || c == '\\' || c < ' ' {
      assert t[2..] == r;
    } else {
      assert t[1..] == r;
    }
  }

  /** `JSON.stringify` loses nothing: the quoted characters read back as the string. */
  lemma {:induction false} QuoteRoundTrip(s: string)
    ensures Unquote(QuoteBody(s)) == Some(s)
  {
    if s != [] {
      UnquoteChar(s[0], QuoteBody(s[1..]));
      QuoteRoundTrip(s[1..]);
      assert [s[0]] + s[1..] == s;
    }
  }

  /** Every error body carries its message: a client reading the `error` field gets it back. */
  lemma ErrorBodyCarries(msg: string)
    ensures ReadErrorField(PayloadText(ErrorJson(msg))) == Some(msg)
  {
    var text := ErrorBody(msg);
    assert text == ErrorPrefix + QuoteBody(msg) + "\"}";
    assert text[..|ErrorPrefix|] == ErrorPrefix;
    assert text[|text| - 2..] == "\"}";
    assert text[|ErrorPrefix|..|text| - 2] == QuoteBody(msg);
    QuoteRoundTrip(msg);
  }

  // ====================================================================
  // the decisions
  // ====================================================================

  /** The upstream status check as written: not `ok` (2xx) and outside the 3xx range means failure. */
  predicate Accepted(status: nat) {
    var ok := 200 <= status <= 299;
    !(!ok && (status < 300 || status >= 400))
  }

  /** Exactly the statuses 200 through 399 pass. */
  lemma AcceptedRange(status: nat)
    ensures Accepted(status) <==> 200 <= status <= 399
  {
  }

  /**
   * The passing statuses are the successful (2xx, section 15.3 of RFC 9110) and
   * redirection (3xx, section 15.4 of RFC 9110) classes: a redirect is passed
   * through, not followed.
   */
  lemma AcceptedClasses(status: nat)
    ensures Accepted(status) <==> status / 100 == 2 || status / 100 == 3
  {
  }

  /** A header value read with `||`: `null` and "" fall back. */
  function OrDefault(v: Option<string>, default: string): (r: string)
    ensures v.Some? && v.value != "" ==> r == v.value
    ensures v.None? || v.value == "" ==> r == default
  {
    if v.Some? && v.value != "" then v.value else default
  }

  /** The head of a streamed download. */
  function DownloadHeaders(up: Upstream): seq<(string, string)> {
    [("content-type", OrDefault(up.contentType, DefaultContentType)),
     ("content-disposition", OrDefault(up.contentDisposition, DefaultDisposition))]
  }

  /** Value of the first header named `name`. */
  function HeaderValue(headers: seq<(string, string)>, name: string): Option<string> {
    if headers == [] then None
    else if headers[0].0 == name then Some(headers[0].1)
    else HeaderValue(headers[1..], name)
  }

  /** Upstream header values are forwarded unchanged when present, and the defaults stand in otherwise. */
  lemma HeaderDefaults(up: Upstream)
    ensures HeaderValue(DownloadHeaders(up), "content-type") ==
      Some(if up.contentType.Some? && up.contentType.value != "" then up.contentType.value else DefaultContentType)
    ensures HeaderValue(DownloadHeaders(up), "content-disposition") ==
      Some(if up.contentDisposition.Some? && up.contentDisposition.value != "" then up.contentDisposition.value else DefaultDisposition)
  {
  }

  /** The bytes of the chunks, in order. */
  function Concat(chunks: seq<seq<byte>>): seq<byte> {
    if chunks == [] then [] else Concat(chunks[..|chunks| - 1]) + chunks[|chunks| - 1]
  }

  lemma {:induction false} ConcatAppend(a: seq<seq<byte>>, b: seq<seq<byte>>)
    ensures Concat(a + b) == Concat(a) + Concat(b)
    decreases |b|
  {
    if b == [] {
      assert a + b == a;
    } else {
      var ab, init, last := a + b, b[..|b| - 1], b[|b| - 1];
      assert ab[..|ab| - 1] == a + init && ab[|ab| - 1] == last;
      ConcatAppend(a, init);
      assert Concat(ab) == Concat(a) + Concat(init) + last;
      assert Concat(b) == Concat(init) + last;
    }
  }

  /** Sum of the chunk lengths. */
  function TotalLength(chunks: seq<seq<byte>>): nat {
    if chunks == [] then 0 else TotalLength(chunks[..|chunks| - 1]) + |chunks[|chunks| - 1]|
  }

  /** No byte is lost or added: the copy is as long as the chunks together. */
  lemma {:induction false} ConcatLength(chunks: seq<seq<byte>>)
    ensures |Concat(chunks)| == TotalLength(chunks)
  {
    if chunks != [] {
      ConcatLength(chunks[..|chunks| - 1]);
    }
  }

  /** `bad(res, code, msg)`: a JSON error head and body, or the failure of its `writeHead`. */
  function Bad(r: Sent, code: nat, msg: string): (Sent, Option<string>) {
    if r.head.Some? then (r, Some(HeadersSent))
    else (r.(head := Some(Head(code, [("content-type", JsonContentType)])), ended := Some(ErrorJson(msg)),
             endCalls := r.endCalls + 1), None)
  }

  /** The `try` block: what it leaves in the response and what it throws. */
  function Attempt(req: Request, target: TargetUrl, fetch: Fetch): (Sent, Option<string>) {
    if req.Unparsable? then (Untouched, Some(req.message))
    else if req.pathname != Route then Bad(Untouched, 404, "Not found")
    else if req.url.None? || req.url.value == "" then Bad(Untouched, 400, "Missing url")
    else if target.Invalid? then (Untouched, Some(target.message))
    else if target.hostname != AllowedHost || target.pathname != AllowedPath then
      Bad(Untouched, 400, "Only rutracker dl.php supported")
    else if fetch.FetchFailed? then (Untouched, Some(fetch.message))
    else
      var up := fetch.upstream;
      if !Accepted(up.status) then Bad(Untouched, 502, "Upstream status " + Text.NatToString(up.status))
      else
        var r := Untouched.(head := Some(Head(200, DownloadHeaders(up))));
        if up.body.None? then Bad(r, 502, "No body")
        else
          var r' := r.(data := Concat(up.body.value.chunks));
          if up.body.value.failure.Some? then (r', up.body.value.failure)
          else (r'.(ended := Some(NoPayload), endCalls := 1), None)
  }

  /** The whole handler: the `try` block, then `bad(res, 500, message)` for what it threw; a second throw escapes. */
  function Respond(req: Request, target: TargetUrl, fetch: Fetch): (Sent, Option<string>) {
    var (r, thrown) := Attempt(req, target, fetch);
    if thrown.Some? then Bad(r, 500, thrown.value) else (r, None)
  }

  /** The JSON error response `bad` gives an untouched response. */
  function ErrorReply(code: nat, msg: string): Sent {
    Sent(Some(Head(code, [("content-type", JsonContentType)])), [], Some(ErrorJson(msg)), 1)
  }

  /** The allow-list check: the host and the path must both be the tracker's download endpoint. */
  predicate Allowed(target: TargetUrl) {
    target == Parsed(AllowedHost, AllowedPath)
  }

  // ====================================================================
  // properties of the handler
  // ====================================================================

  /** The request reaches the target check: it parsed, its path is the route and its `url` is non-empty. */
  predicate TargetRequested(req: Request) {
    req.Request? && req.pathname == Route && req.url.Some? && req.url.value != ""
  }

  /** A request whose own URL does not parse is 500 carrying the parser's message, whatever the target and upstream. */
  lemma UnparsableRequestIs500(req: Request, target: TargetUrl, fetch: Fetch)
    requires req.Unparsable?
    ensures Respond(req, target, fetch) == (ErrorReply(500, req.message), None)
  {
  }

  /** Any other path is 404, whatever the rest of the request. */
  lemma RouteFirst(req: Request, target: TargetUrl, fetch: Fetch)
    requires req.Request? && req.pathname != Route
    ensures Respond(req, target, fetch) == (ErrorReply(404, "Not found"), None)
  {
  }

  /** A missing or empty `url` parameter is 400 "Missing url". */
  lemma MissingUrl(req: Request, target: TargetUrl, fetch: Fetch)
    requires req.Request? && req.pathname == Route && (req.url.None? || req.url == Some(""))
    ensures Respond(req, target, fetch) == (ErrorReply(400, "Missing url"), None)
  {
  }

  /** A target that does not parse, or a fetch that rejects, is 500 carrying the error's message. */
  lemma ThrownIs500(req: Request, target: TargetUrl, fetch: Fetch)
    requires TargetRequested(req)
    ensures target.Invalid? ==> Respond(req, target, fetch) == (ErrorReply(500, target.message), None)
    ensures Allowed(target) && fetch.FetchFailed? ==> Respond(req, target, fetch) == (ErrorReply(500, fetch.message), None)
  {
  }

  /**
   * The allow-list is exact: a parsed target is refused with 400 exactly when its
   * host or its path differs from the tracker's download endpoint.
   */
  lemma AllowListExact(req: Request, hostname: string, pathname: string, fetch: Fetch)
    requires TargetRequested(req)
    ensures Respond(req, Parsed(hostname, pathname), fetch) == (ErrorReply(400, "Only rutracker dl.php supported"), None)
            <==> !(hostname == AllowedHost && pathname == AllowedPath)
  {
  }

  /** Nothing is fetched for a target off the allow-list: the answer does not depend on the upstream at all. */
  lemma OffListIgnoresUpstream(req: Request, target: TargetUrl, f1: Fetch, f2: Fetch)
    requires !Allowed(target)
    ensures Respond(req, target, f1) == Respond(req, target, f2)
  {
  }

  /** The same host with another path, and another host with the same path, are both refused. */
  lemma AllowListNearMisses(req: Request, fetch: Fetch)
    requires TargetRequested(req)
    ensures Respond(req, Parsed(AllowedHost, "/forum/viewtopic.php"), fetch).0 == ErrorReply(400, "Only rutracker dl.php supported")
    ensures Respond(req, Parsed("evil.example", AllowedPath), fetch).0 == ErrorReply(400, "Only rutracker dl.php supported")
  {
  }

  /** An upstream status outside 200..399 is 502 naming the status. */
  lemma UpstreamStatusRefused(req: Request, up: Upstream)
    requires TargetRequested(req)
    requires !(200 <= up.status <= 399)
    ensures Respond(req, Parsed(AllowedHost, AllowedPath), Fetched(up)) ==
      (ErrorReply(502, "Upstream status " + Text.NatToString(up.status)), None)
  {
  }

  /**
   * An accepted upstream with a body that reads to the end is streamed: head 200
   * with the forwarded or default headers, every chunk's bytes in order, one `end`.
   */
  lemma Streamed(req: Request, up: Upstream)
    requires TargetRequested(req)
    requires 200 <= up.status <= 399 && up.body.Some? && up.body.value.failure.None?
    ensures Respond(req, Parsed(AllowedHost, AllowedPath), Fetched(up)) ==
      (Sent(Some(Head(200, DownloadHeaders(up))), Concat(up.body.value.chunks), Some(NoPayload), 1), None)
  {
  }

  // ====================================================================
  // the handler as it runs
  // ====================================================================

  /** `bad(res, code, msg)`. */
  method BadResponse(res: ServerResponse, code: nat, msg: string) returns (thrown: Option<string>)
    modifies res
    ensures (res.State(), thrown) == Bad(old(res.State()), code, msg)
  {
    thrown := res.WriteHead(code, [("content-type", JsonContentType)]);
    if thrown.Some? {
      return;
    }
    res.End(ErrorJson(msg));
  }

  /** The read loop: write each chunk as it arrives, until `done` or a failed read. */
  method CopyBody(res: ServerResponse, body: Stream) returns (thrown: Option<string>)
    modifies res
    ensures res.State() == old(res.State()).(data := old(res.data) + Concat(body.chunks))
    ensures thrown == body.failure
  {
    var i := 0;
    while i < |body.chunks|
      invariant 0 <= i <= |body.chunks|
      invariant res.State() == old(res.State()).(data := old(res.data) + Concat(body.chunks[..i]))
    {
      assert body.chunks[..i + 1][..i] == body.chunks[..i];
      res.Write(body.chunks[i]);
      i := i + 1;
    }
    assert body.chunks[..i] == body.chunks;
    thrown := body.failure;
  }

  /** The `try` block. */
  method TryHandle(req: Request, target: TargetUrl, fetch: Fetch, res: ServerResponse) returns (thrown: Option<string>)
    requires res.State() == Untouched
    modifies res
    ensures (res.State(), thrown) == Attempt(req, target, fetch)
  {
    if req.Unparsable? {
      return Some(req.message);
    }
    if req.pathname != Route {
      thrown := BadResponse(res, 404, "Not found");
      return;
    }
    if req.url.None? || req.url.value == "" {
      thrown := BadResponse(res, 400, "Missing url");
      return;
    }
    if target.Invalid? {
      return Some(target.message);
    }
    if target.hostname != AllowedHost || target.pathname != AllowedPath {
      thrown := BadResponse(res, 400, "Only rutracker dl.php supported");
      return;
    }
    if fetch.FetchFailed? {
      return Some(fetch.message);
    }
    var up := fetch.upstream;
    if !Accepted(up.status) {
      thrown := BadResponse(res, 502, "Upstream status " + Text.NatToString(up.status));
      return;
    }
    thrown := res.WriteHead(200, DownloadHeaders(up));
    assert res.State() == Untouched.(head := Some(Head(200, DownloadHeaders(up))));
    if up.body.None? {
      thrown := BadResponse(res, 502, "No body");
      return;
    }
    thrown := CopyBody(res, up.body.value);
    assert res.State() == Untouched.(head := Some(Head(200, DownloadHeaders(up))), data := Concat(up.body.value.chunks));
    if thrown.Some? {
      return;
    }
    res.End(NoPayload);
  }

  /** The request handler: what it leaves in the response, and an error that escapes it. */
  method Handle(req: Request, target: TargetUrl, fetch: Fetch, res: ServerResponse) returns (escaped: Option<string>)
    requires res.State() == Untouched
    modifies res
    ensures (res.State(), escaped) == Respond(req, target, fetch)
  {
    var thrown := TryHandle(req, target, fetch, res);
    escaped := None;
    if thrown.Some? {
      escaped := BadResponse(res, 500, thrown.value);
    }
  }

  // ====================================================================
  // the missing body
  // ====================================================================

  /**
   * As written, an accepted upstream without a body (fetch gives a null body for
   * 204, 205 and 304) never gets its 502: the head is already 200, so `bad` fails,
   * and so does the `catch`'s own `bad`. The error escapes the handler and the
   * response is never ended.
   */
  lemma NoBodyAsWritten(req: Request)
    requires TargetRequested(req)
    ensures var up := Upstream(204, None, None, None);
      Respond(req, Parsed(AllowedHost, AllowedPath), Fetched(up)) ==
        (Sent(Some(Head(200, DownloadHeaders(up))), [], None, 0), Some(HeadersSent))
  {
  }

  /** The same holds for a read that fails mid-stream: the bytes so far, a 200 head, no end, an escaped error. */
  lemma StreamFailureAsWritten(req: Request, up: Upstream)
    requires TargetRequested(req)
    requires 200 <= up.status <= 399 && up.body.Some? && up.body.value.failure.Some?
    ensures Respond(req, Parsed(AllowedHost, AllowedPath), Fetched(up)) ==
      (Sent(Some(Head(200, DownloadHeaders(up))), Concat(up.body.value.chunks), None, 0), Some(HeadersSent))
  {
  }

  /** The handler with the body checked before the head is written. */
  function RespondChecked(req: Request, target: TargetUrl, fetch: Fetch): (Sent, Option<string>) {
    if TargetRequested(req) && Allowed(target)
       && fetch.Fetched? && Accepted(fetch.upstream.status) && fetch.upstream.body.None?
    then Bad(Untouched, 502, "No body")
    else Respond(req, target, fetch)
  }

  /** Checked first, a missing body is answered with 502 "No body", and every other answer is unchanged. */
  lemma NoBodyChecked(req: Request, target: TargetUrl, fetch: Fetch)
    requires TargetRequested(req) && Allowed(target)
    ensures fetch.Fetched? && Accepted(fetch.upstream.status) && fetch.upstream.body.None? ==>
      RespondChecked(req, target, fetch) == (ErrorReply(502, "No body"), None)
    ensures fetch.FetchFailed? || !Accepted(fetch.upstream.status) || fetch.upstream.body.Some? ==>
      RespondChecked(req, target, fetch) == Respond(req, target, fetch)
  {
  }

  /** Checked first, unless a read fails mid-stream, nothing escapes the handler and `end` is called exactly once. */
  lemma CheckedAlwaysAnswers(req: Request, target: TargetUrl, fetch: Fetch)
    requires !(fetch.Fetched? && fetch.upstream.body.Some? && fetch.upstream.body.value.failure.Some?)
    ensures RespondChecked(req, target, fetch).1 == None
    ensures RespondChecked(req, target, fetch).0.endCalls == 1
  {
  }
}
