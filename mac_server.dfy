/**
 * The macOS app's local HTTP server (`ServerManager`): routing of one
 * received request, extraction of the chat request's body, the response
 * builder, and the connection URL shown in the QR code. The listener, the
 * connection and the Ollama request are replaced by their inputs and
 * outcomes; UTF-8 decoding and JSON are given as functions.
 */
module MacServer {
  import opened Wrappers
  import opened Text
  import opened Json
  import opened NoiseStub

  const Port: nat := 8888
  const BlankLine: string := "\r\n\r\n"

  /**
   * The header ahead of a body of `n` UTF-8 bytes: the status line and the
   * three fields, each ended by CRLF, then the CRLF of the empty line.
   */
  function Header(n: nat): string {
    Fields(HeaderLines(n))
  }

  /** A response as `handleConnection` sends it: a 200 with a body, or the 404. */
  datatype Response = Ok(body: string) | NotFoundResponse

  /** The bytes on the wire, as text: `createHTTPResponse(body:)`, or the fixed 404. */
  function Wire(r: Response): string {
    match r
    case Ok(body) => CreateHTTPResponse(body)
    case NotFoundResponse => NotFound
  }

  /** `createHTTPResponse`. */
  function CreateHTTPResponse(body: string): string {
    Header(Utf8Len(body)) + body
  }

  /** The text after the first blank line (`range(of: "\r\n\r\n")`), if there is one. */
  function BodyAfterBlankLine(request: string): (r: Option<string>)
    ensures r.Some? <==> Contains(request, BlankLine)
  {
    match IndexOf(request, BlankLine)
    case None => None
    case Some(i) => Some(request[i + |BlankLine|..])
  }

  /** Header fields, each followed by CRLF, then one more CRLF. */
  function Fields(lines: seq<string>): string
    decreases |lines|
  {
    if lines == [] then "\r\n" else lines[0] + "\r\n" + Fields(lines[1..])
  }

  /** The status line and fields of `Header(n)`. */
  function HeaderLines(n: nat): seq<string> {
    ["HTTP/1.1 200 OK", "Content-Type: application/json", "Content-Length: " + NatToString(n),
     "Access-Control-Allow-Origin: *"]
  }

  /** Four fields, written out. */
  lemma FieldsOfFour(a: string, b: string, c: string, d: string)
    ensures Fields([a, b, c, d]) == a + "\r\n" + b + "\r\n" + c + "\r\n" + d + "\r\n\r\n"
  {
    assert [a, b, c, d][1..] == [b, c, d] && [b, c, d][1..] == [c, d];
    assert [c, d][1..] == [d] && [d][1..] == [];
    assert "\r\n" + "\r\n" == "\r\n\r\n";
    assert Fields([d]) == d + "\r\n\r\n";
    assert Fields([c, d]) == c + "\r\n" + (d + "\r\n\r\n");
    assert Fields([b, c, d]) == b + "\r\n" + (c + "\r\n" + (d + "\r\n\r\n"));
  }

  /** The header's text, line by line. */
  lemma HeaderText(n: nat)
    ensures Header(n) == "HTTP/1.1 200 OK" + "\r\n" + "Content-Type: application/json" + "\r\n"
                         + ("Content-Length: " + NatToString(n)) + "\r\n" + "Access-Control-Allow-Origin: *" + "\r\n\r\n"
  {
    var ls := HeaderLines(n);
    FieldsOfFour(ls[0], ls[1], ls[2], ls[3]);
  }

  /** No header line is empty or holds a carriage return. */
  lemma HeaderLinesPlain(n: nat)
    ensures forall k :: 0 <= k < |HeaderLines(n)| ==> HeaderLines(n)[k] != "" && '\r' !in HeaderLines(n)[k]
  {
    var ls := HeaderLines(n);
    var digits := NatToString(n);
    var cl := "Content-Length: ";
    forall i | 0 <= i < |ls[2]| ensures ls[2][i] != '\r' {
      if i < |cl| {
        assert ls[2][i] == cl[i];
      } else {
        assert ls[2][i] == digits[i - |cl|];
        assert IsDigit(digits[i - |cl|]);
      }
    }
  }

  /** `OccursAt` in a suffix of `s` is `OccursAt` in `s`, shifted. */
  lemma OccursShift(p: string, s: string, t: string, j: nat)
    ensures OccursAt(p + s, t, |p| + j) <==> OccursAt(s, t, j)
  {
    if |p| + j + |t| <= |p + s| {
      assert (p + s)[|p| + j..|p| + j + |t|] == s[j..j + |t|];
    }
  }

  /** A text does not occur where one of its characters differs. */
  lemma NotOccursAt(s: string, t: string, j: nat, k: nat)
    requires k < |t| && j + k < |s| && s[j + k] != t[k]
    ensures !OccursAt(s, t, j)
  {
    if j + |t| <= |s| {
      assert s[j..j + |t|][k] == s[j + k];
    }
  }

  /** No blank line starts inside `l` or its own line end, when `l` has no carriage return. */
  lemma NoBlankLineInLine(l: string, tail: string, j: nat)
    requires '\r' !in l
    requires j < |l| + 2
    requires j == |l| ==> tail != [] && tail[0] != '\r'
    ensures !OccursAt(l + "\r\n" + tail, BlankLine, j)
  {
    var s := l + "\r\n" + tail;
    if j < |l| {
      assert s[j] == l[j];
      NotOccursAt(s, BlankLine, j, 0);
    } else if j == |l| {
      assert s[j + 2] == tail[0];
      NotOccursAt(s, BlankLine, j, 2);
    } else {
      assert s[j] == '\n';
      NotOccursAt(s, BlankLine, j, 0);
    }
  }

  /**
   * A line without carriage returns in front of a text whose first blank
   * line is at `m` (and which does not start with a carriage return) moves
   * that first blank line by the line and its CRLF.
   */
  lemma FirstBlankLineAfterLine(l: string, tail: string, m: nat)
    requires '\r' !in l
    requires tail != [] && tail[0] != '\r'
    requires OccursAt(tail, BlankLine, m)
    requires forall j :: 0 <= j < m ==> !OccursAt(tail, BlankLine, j)
    ensures OccursAt(l + "\r\n" + tail, BlankLine, |l| + 2 + m)
    ensures forall j :: 0 <= j < |l| + 2 + m ==> !OccursAt(l + "\r\n" + tail, BlankLine, j)
  {
    var p := l + "\r\n";
    assert l + "\r\n" + tail == p + tail;
    OccursShift(p, tail, BlankLine, m);
    forall j | 0 <= j < |l| + 2 + m ensures !OccursAt(p + tail, BlankLine, j) {
      if j < |l| + 2 {
        NoBlankLineInLine(l, tail, j);
      } else {
        OccursShift(p, tail, BlankLine, j - |l| - 2);
      }
    }
  }

  /** The last field: its CRLF and the closing CRLF are the first blank line. */
  lemma FirstBlankLineAfterLastLine(l: string, body: string)
    requires l != [] && '\r' !in l
    ensures OccursAt(l + "\r\n" + ("\r\n" + body), BlankLine, |l|)
    ensures forall j :: 0 <= j < |l| ==> !OccursAt(l + "\r\n" + ("\r\n" + body), BlankLine, j)
  {
    var s := l + "\r\n" + ("\r\n" + body);
    assert s[|l|..|l| + 4] == BlankLine;
    forall j | 0 <= j < |l| ensures !OccursAt(s, BlankLine, j) {
      NoBlankLineInLine(l, "\r\n" + body, j);
    }
  }

  /**
   * In fields without carriage returns, followed by anything, the first
   * blank line is the one that ends the fields.
   */
  lemma {:induction false} FirstBlankLineEndsFields(lines: seq<string>, body: string)
    requires lines != []
    requires forall k :: 0 <= k < |lines| ==> lines[k] != "" && '\r' !in lines[k]
    ensures |Fields(lines)| >= 4
    ensures OccursAt(Fields(lines) + body, BlankLine, |Fields(lines)| - 4)
    ensures forall j :: 0 <= j < |Fields(lines)| - 4 ==> !OccursAt(Fields(lines) + body, BlankLine, j)
    decreases |lines|
  {
    var l := lines[0];
    var rest := lines[1..];
    var tail := Fields(rest) + body;
    assert Fields(lines) + body == l + "\r\n" + tail;
    if rest == [] {
      assert tail == "\r\n" + body;
      FirstBlankLineAfterLastLine(l, body);
    } else {
      assert forall k :: 0 <= k < |rest| ==> rest[k] == lines[k + 1];
      FirstBlankLineEndsFields(rest, body);
      assert tail[0] == rest[0][0];
      FirstBlankLineAfterLine(l, tail, |Fields(rest)| - 4);
    }
  }

  /** `IndexOf` is the occurrence with none before it. */
  lemma IndexOfIs(s: string, t: string, k: nat)
    requires OccursAt(s, t, k)
    requires forall j :: 0 <= j < k ==> !OccursAt(s, t, j)
    ensures IndexOf(s, t) == Some(k)
  {
  }

  /**
   * The response starts with the status line, announces the body's UTF-8
   * length, and the text after its first blank line is the body.
   */
  lemma ResponseRoundTrip(body: string)
    ensures StartsWith(CreateHTTPResponse(body), "HTTP/1.1 200 OK\r\n")
    ensures BodyAfterBlankLine(CreateHTTPResponse(body)) == Some(body)
    ensures DecimalValue(NatToString(Utf8Len(body))) == Utf8Len(body)
  {
    var n := Utf8Len(body);
    HeaderLinesPlain(n);
    FirstBlankLineEndsFields(HeaderLines(n), body);
    var r := CreateHTTPResponse(body);
    IndexOfIs(r, BlankLine, |Header(n)| - 4);
    assert r[|Header(n)|..] == body;
    assert r[..17] == Header(n)[..17];
    DecimalValueOfNatToString(n);
  }

  /** The connect reply's body. */
  const ConnectBody: string := "{\n    \"status\": \"connected\",\n    \"serverName\": \"QuicPair Mac\",\n    \"version\": \"1.0\"\n}"

  const NotFound: string := "HTTP/1.1 404 Not Found\r\nContent-Length: 0\r\n\r\n"

  datatype Route = ConnectRoute | ChatRoute | NotFoundRoute

  /** The routing of `handleConnection`: the connect check comes first. */
  function RouteOf(request: string): (r: Route)
    ensures r == ConnectRoute <==> Contains(request, "GET /connect")
    ensures r == ChatRoute <==> !Contains(request, "GET /connect") && Contains(request, "POST /chat")
  {
    if Contains(request, "GET /connect") then ConnectRoute
    else if Contains(request, "POST /chat") then ChatRoute
    else NotFoundRoute
  }

  /** The body `generateResponse` posts to Ollama. */
  function GenerateBody(prompt: string): (j: Json)
    ensures j.JObj? && j.fields.Keys == {"model", "prompt", "stream"}
    ensures GetString(j, "model") == Some("llama3.2:3b") && GetString(j, "prompt") == Some(prompt)
    ensures GetBool(j, "stream") == Some(false)
  {
    JObj(map["model" := JStr("llama3.2:3b"), "prompt" := JStr(prompt), "stream" := JBool(false)])
  }

  /** `generateResponse` on Ollama's reply (an error's description, or the decoded body). */
  function GenerateResponse(reply: Result<Json, string>): (r: Result<string, string>)
    ensures reply.Failure? ==> r == Failure(reply.error)
    ensures reply.Success? ==>
              (r.Success? <==> GetString(reply.value, "response").Some?)
              && (r.Success? ==> Some(r.value) == GetString(reply.value, "response"))
              && (r.Failure? ==> r.error == "Failed to generate response")
  {
    if reply.Failure? then Failure(reply.error)
    else if GetString(reply.value, "response").Some? then Success(GetString(reply.value, "response").value)
    else Failure("Failed to generate response")
  }

  /**
   * `handleChatRequest`: no reply unless the text has a blank line and the
   * body after it is an object with a string "prompt"; then a 200 whose
   * body is the generated text, or the error. `encode` stands for
   * `JSONSerialization.data` and its UTF-8 decoding.
   */
  function ChatReply(request: Option<string>, decodeBody: string -> Option<Json>, ollama: Result<Json, string>,
                     encode: Json -> Option<string>): (r: Option<Response>)
    ensures r.Some? ==> r.value.Ok?
    ensures r.Some? <==> request.Some? && BodyAfterBlankLine(request.value).Some?
                         && decodeBody(BodyAfterBlankLine(request.value).value).Some?
                         && GetString(decodeBody(BodyAfterBlankLine(request.value).value).value, "prompt").Some?
  {
    if request.None? then None
    else match BodyAfterBlankLine(request.value)
      case None => None
      case Some(body) =>
        var json := decodeBody(body);
        if json.None? || GetString(json.value, "prompt").None? then None
        else match GenerateResponse(ollama)
          case Success(text) => Some(Ok(encode(StrObject(map["response" := text])).GetOr("{}")))
          case Failure(err) => Some(Ok("{\"error\": \"" + err + "\"}"))
  }

  /** `updateConnectionURL`: the address found, or localhost. */
  function ConnectionURL(ip: Option<string>): (u: string)
    ensures ip.Some? ==> u == "http://" + ip.value + ":8888"
    ensures ip.None? ==> u == "http://localhost:8888"
  {
    "http://" + (if ip.Some? then ip.value else "localhost") + ":" + NatToString(Port)
  }

  /** The response to what arrived: none for no data, else by route. */
  function Respond(data: Option<seq<Byte>>, utf8: seq<Byte> -> Option<string>, decodeBody: string -> Option<Json>,
                   ollama: Result<Json, string>, encode: Json -> Option<string>): (r: Option<Response>)
    ensures data.None? || data.value == [] ==> r.None?
    ensures data.Some? && data.value != [] ==>
              var request := utf8(data.value).GetOr("");
              (RouteOf(request) == ConnectRoute ==> r == Some(Ok(ConnectBody)))
              && (RouteOf(request) == ChatRoute ==> r == ChatReply(utf8(data.value), decodeBody, ollama, encode))
              && (RouteOf(request) == NotFoundRoute ==> r == Some(NotFoundResponse))
  {
    if data.None? || data.value == [] then None
    else
      var request := utf8(data.value).GetOr("");
      match RouteOf(request)
      case ConnectRoute => Some(Ok(ConnectBody))
      case ChatRoute => ChatReply(utf8(data.value), decodeBody, ollama, encode)
      case NotFoundRoute => Some(NotFoundResponse)
  }

  /** Every 200 the server sends carries its body intact after the blank line. */
  lemma SentBodiesRoundTrip(r: Response)
    requires r.Ok?
    ensures BodyAfterBlankLine(Wire(r)) == Some(r.body)
  {
    ResponseRoundTrip(r.body);
  }

  class ServerManager {
    var isClientConnected: bool
    var connectionURL: string
    /** Every response sent, in order. */
    var responses: seq<Response>

    /** `init`: the list of addresses yields `ip`. */
    constructor (ip: Option<string>)
      ensures connectionURL == ConnectionURL(ip) && !isClientConnected && responses == []
    {
      isClientConnected := false;
      connectionURL := ConnectionURL(ip);
      responses := [];
    }

    /**
     * `handleConnection`'s receive handler. `data` is what arrived (None
     * when nothing did), `utf8` its decoding as text.
     */
    method HandleConnection(data: Option<seq<Byte>>, utf8: seq<Byte> -> Option<string>,
                            decodeBody: string -> Option<Json>, ollama: Result<Json, string>,
                            encode: Json -> Option<string>)
      modifies this
      ensures var r := Respond(data, utf8, decodeBody, ollama, encode);
              responses == old(responses) + (if r.Some? then [r.value] else [])
      ensures isClientConnected == (old(isClientConnected)
                                    || (data.Some? && data.value != [] && RouteOf(utf8(data.value).GetOr("")) == ConnectRoute))
      ensures connectionURL == old(connectionURL)
    {
      if data.Some? && data.value != [] {
        if RouteOf(utf8(data.value).GetOr("")) == ConnectRoute {
          isClientConnected := true;
        }
        var r := Respond(data, utf8, decodeBody, ollama, encode);
        if r.Some? {
          responses := responses + [r.value];
        }
      }
    }
  }
}
