/**
 * The single-file macOS app (`QuicPairSimple`): the pairing string shown in
 * its QR code, the address picked out of `ifconfig`'s output, and the chat
 * window that streams a reply from the local Ollama. Running `ifconfig`,
 * the HTTP requests and JSON decoding are replaced by their outputs.
 */
module MacSimple {
  import opened Wrappers
  import opened Text
  import opened Json

  // ---------------------------------------------------------------------
  // The pairing string

  datatype ServerInfo = ServerInfo(server: string, publicKey: string, model: string)

  /** The two values a pairing string carries. */
  datatype Pairing = Pairing(server: string, publicKey: string)

  const Pre: string := "{\"server\":\""
  const Mid: string := "\",\"publicKey\":\""
  const Suf: string := "\",\"protocol\":\"Noise_IK\"}"

  /** `ServerInfo.connectionString`: the two values pasted in, without escaping. */
  function ConnectionString(info: ServerInfo): string {
    Pre + (info.server + (Mid + (info.publicKey + Suf)))
  }

  /** The key and what follows it: `mid` K `suf`, K running up to the next quote. */
  function UnframeKey(b: string, mid: string, suf: string): (r: Option<string>)
    ensures r.Some? ==> '"' !in r.value && b == mid + (r.value + suf)
  {
    if !StartsWith(b, mid) then None
    else
      var c := b[|mid|..];
      match IndexOfChar(c, '"')
      case None => None
      case Some(j) =>
        if c[j..] != suf then None
        else
          assert b == mid + c && c == c[..j] + c[j..];
          Some(c[..j])
  }

  /** The server and the rest: S `mid` K `suf`, S running up to the next quote. */
  function UnframeServer(a: string, mid: string, suf: string): (r: Option<Pairing>)
    ensures r.Some? ==> '"' !in r.value.server && '"' !in r.value.publicKey
    ensures r.Some? ==> a == r.value.server + (mid + (r.value.publicKey + suf))
  {
    match IndexOfChar(a, '"')
    case None => None
    case Some(i) =>
      match UnframeKey(a[i..], mid, suf)
      case None => None
      case Some(key) =>
        var server, rest := a[..i], a[i..];
        assert a == server + rest;
        assert rest == mid + (key + suf);
        Some(Pairing(server, key))
  }

  /**
   * What a reader of the layout `pre` S `mid` K `suf` recovers: the server
   * and the key, each running up to the next quote.
   */
  function Unframe(s: string, pre: string, mid: string, suf: string): (r: Option<Pairing>)
    ensures r.Some? ==> '"' !in r.value.server && '"' !in r.value.publicKey
    ensures r.Some? ==> s == pre + (r.value.server + (mid + (r.value.publicKey + suf)))
  {
    if !StartsWith(s, pre) then None
    else
      assert s == pre + s[|pre|..];
      UnframeServer(s[|pre|..], mid, suf)
  }

  /** A value without quotes, then text opening with a quote: the quote ends the value. */
  lemma QuoteEndsValue(v: string, rest: string)
    requires '"' !in v && rest != [] && rest[0] == '"'
    ensures IndexOfChar(v + rest, '"') == Some(|v|)
    ensures (v + rest)[..|v|] == v && (v + rest)[|v|..] == rest
  {
    var s := v + rest;
    assert s[..|v|] == v && s[|v|..] == rest;
    assert s[|v|] == rest[0];
    IndexOfCharIs(s, '"', |v|);
  }

  lemma UnframeKeyFrame(mid: string, key: string, suf: string)
    requires '"' !in key && suf != [] && suf[0] == '"'
    ensures UnframeKey(mid + (key + suf), mid, suf) == Some(key)
  {
    var b := mid + (key + suf);
    assert b[..|mid|] == mid && b[|mid|..] == key + suf;
    QuoteEndsValue(key, suf);
  }

  lemma UnframeServerFrame(server: string, mid: string, key: string, suf: string)
    requires '"' !in server && '"' !in key
    requires mid != [] && mid[0] == '"' && suf != [] && suf[0] == '"'
    ensures UnframeServer(server + (mid + (key + suf)), mid, suf) == Some(Pairing(server, key))
  {
    QuoteEndsValue(server, mid + (key + suf));
    UnframeKeyFrame(mid, key, suf);
  }

  /** `Unframe` undoes the framing when the values hold no quote and quotes open `mid` and `suf`. */
  lemma UnframeFrame(pre: string, server: string, mid: string, key: string, suf: string)
    requires '"' !in server && '"' !in key
    requires mid != [] && mid[0] == '"' && suf != [] && suf[0] == '"'
    ensures Unframe(pre + (server + (mid + (key + suf))), pre, mid, suf) == Some(Pairing(server, key))
  {
    var a := server + (mid + (key + suf));
    assert (pre + a)[..|pre|] == pre && (pre + a)[|pre|..] == a;
    UnframeServerFrame(server, mid, key, suf);
  }

  /** What the pairing string's reader recovers. */
  function ConnectionFields(s: string): (r: Option<Pairing>)
    ensures r.Some? ==> '"' !in r.value.server && '"' !in r.value.publicKey
    ensures r.Some? ==> s == ConnectionString(ServerInfo(r.value.server, r.value.publicKey, ""))
  {
    Unframe(s, Pre, Mid, Suf)
  }

  /**
   * The pairing string gives back its server and key exactly when neither
   * holds a quote: nothing is escaped.
   */
  lemma ConnectionStringRoundTrip(info: ServerInfo)
    ensures ConnectionFields(ConnectionString(info)) == Some(Pairing(info.server, info.publicKey))
            <==> '"' !in info.server && '"' !in info.publicKey
  {
    if '"' !in info.server && '"' !in info.publicKey {
      assert Mid[0] == '"' && Suf[0] == '"';
      UnframeFrame(Pre, info.server, Mid, info.publicKey, Suf);
    }
  }

  /** `loadServerInfo`: the address found, else localhost, on port 8443. */
  function ServerAddress(localIP: Option<string>): (r: string)
    ensures localIP.Some? ==> r == localIP.value + ":8443"
    ensures localIP.None? ==> r == "localhost:8443"
  {
    localIP.GetOr("localhost") + ":8443"
  }

  // ---------------------------------------------------------------------
  // `getLocalIP`

  /** A line worth looking into: it mentions "inet " and not the loopback address. */
  predicate Candidate(line: string) {
    Contains(line, "inet ") && !Contains(line, "127.0.0.1")
  }

  /** `i` is the first component that is exactly "inet", and one follows it. */
  predicate FirstInetAt(cs: seq<string>, i: int) {
    0 <= i < |cs| - 1 && cs[i] == "inet" && forall k :: 0 <= k < i ==> cs[k] != "inet"
  }

  /** The component after the first component that is exactly "inet" and is not the last. */
  function InetValue(cs: seq<string>): (r: Option<string>)
    ensures r.None? <==> forall i :: 0 <= i < |cs| - 1 ==> cs[i] != "inet"
    ensures forall i :: FirstInetAt(cs, i) ==> r == Some(cs[i + 1])
    decreases |cs|
  {
    if |cs| < 2 then None
    else if cs[0] == "inet" then Some(cs[1])
    else
      var r := InetValue(cs[1..]);
      assert forall i :: 0 <= i < |cs| - 2 ==> cs[1..][i] == cs[i + 1];
      assert forall i :: FirstInetAt(cs, i) ==> FirstInetAt(cs[1..], i - 1) by {
        forall i | FirstInetAt(cs, i) ensures FirstInetAt(cs[1..], i - 1) {
          assert i != 0;
          forall k | 0 <= k < i - 1 ensures cs[1..][k] != "inet" {
            assert cs[1..][k] == cs[k + 1];
          }
        }
      }
      r
  }

  /** The address on the first candidate line that has one. */
  function LocalIP(lines: seq<string>): (r: Option<string>)
    ensures r.None? <==> forall k :: 0 <= k < |lines| && Candidate(lines[k]) ==> InetValue(Split(lines[k], ' ')).None?
    ensures r.Some? ==> exists k :: 0 <= k < |lines| && Candidate(lines[k]) && InetValue(Split(lines[k], ' ')) == r
    decreases |lines|
  {
    if lines == [] then None
    else if Candidate(lines[0]) && InetValue(Split(lines[0], ' ')).Some? then InetValue(Split(lines[0], ' '))
    else
      var r := LocalIP(lines[1..]);
      assert forall k :: 0 <= k < |lines| - 1 ==> lines[1..][k] == lines[k + 1];
      assert forall k :: 1 <= k < |lines| ==> lines[k] == lines[1..][k - 1];
      r
  }

  /** `LocalIP` one line at a time. */
  lemma LocalIPStep(lines: seq<string>, i: nat)
    requires i < |lines|
    ensures LocalIP(lines[i..]) == (if Candidate(lines[i]) && InetValue(Split(lines[i], ' ')).Some?
                                    then InetValue(Split(lines[i], ' ')) else LocalIP(lines[i + 1..]))
  {
    assert lines[i..][0] == lines[i] && lines[i..][1..] == lines[i + 1..];
  }

  /** `InetValue` one component at a time. */
  lemma InetValueStep(cs: seq<string>, j: nat)
    requires j < |cs|
    ensures InetValue(cs[j..]) == (if cs[j] == "inet" && j + 1 < |cs| then Some(cs[j + 1]) else InetValue(cs[j + 1..]))
  {
    var t := cs[j..];
    assert t[0] == cs[j] && t[1..] == cs[j + 1..];
    if |t| >= 2 {
      assert t[1] == cs[j + 1];
    }
  }

  /**
   * `getLocalIP` on the command's output: lines split on "\n", components
   * split on single spaces, returning from inside both loops.
   */
  method GetLocalIP(output: string) returns (ip: Option<string>)
    ensures ip == LocalIP(Split(output, '\n'))
  {
    var lines := Split(output, '\n');
    var i := 0;
    while i < |lines|
      invariant 0 <= i <= |lines|
      invariant LocalIP(lines[i..]) == LocalIP(lines)
    {
      LocalIPStep(lines, i);
      var line := lines[i];
      if Contains(line, "inet ") && !Contains(line, "127.0.0.1") {
        var components := Split(line, ' ');
        var j := 0;
        while j < |components|
          invariant 0 <= j <= |components|
          invariant InetValue(components[j..]) == InetValue(components)
        {
          InetValueStep(components, j);
          if components[j] == "inet" && j + 1 < |components| {
            return Some(components[j + 1]);
          }
          j := j + 1;
        }
        assert components[j..] == [];
      }
      i := i + 1;
    }
    assert lines[i..] == [];
    return None;
  }

  // ---------------------------------------------------------------------
  // The chat window

  datatype ChatMessage = ChatMessage(text: string, isUser: bool)

  const Placeholder: string := "..."

  /** The model `streamChat` asks for: the small one for prompts under 20 characters. */
  function ChatModel(prompt: string): (m: string)
    ensures m == "smollm2:135m" <==> |prompt| < 20
    ensures m == "qwen2.5:3b" <==> |prompt| >= 20
  {
    if |prompt| < 20 then "smollm2:135m" else "qwen2.5:3b"
  }

  /** The body `streamChat` posts: the chosen model, the prompt as the one user message, streaming. */
  function ChatBody(prompt: string): (j: Json)
    ensures j.JObj? && j.fields.Keys == {"model", "messages", "stream"}
    ensures GetString(j, "model") == Some(ChatModel(prompt)) && GetBool(j, "stream") == Some(true)
    ensures GetObjectArray(j, "messages") == Some([StrObject(map["role" := "user", "content" := prompt])])
  {
    JObj(map["model" := JStr(ChatModel(prompt)),
             "messages" := JArr([StrObject(map["role" := "user", "content" := prompt])]),
             "stream" := JBool(true)])
  }

  /** The content of one streamed line: `json["message"]["content"]` as a string, if it parses. */
  function ContentOf(line: string, decode: string -> Option<Json>): (r: Option<string>)
    ensures r.Some? <==> decode(line).Some? && GetObject(decode(line).value, "message").Some?
                         && GetString(GetObject(decode(line).value, "message").value, "content").Some?
  {
    match decode(line)
    case None => None
    case Some(json) =>
      match GetObject(json, "message")
      case None => None
      case Some(message) => GetString(message, "content")
  }

  /** The reply so far: every parseable line's content, in order. */
  function ResponseText(lines: seq<string>, decode: string -> Option<Json>): string
    decreases |lines|
  {
    if lines == [] then ""
    else ResponseText(lines[..|lines| - 1], decode) + ContentOf(lines[|lines| - 1], decode).GetOr("")
  }

  /** Some line so far parsed, so the reply replaced the placeholder. */
  predicate AnyContent(lines: seq<string>, decode: string -> Option<Json>) {
    exists k :: 0 <= k < |lines| && ContentOf(lines[k], decode).Some?
  }

  /** The reply of a stream is the replies of its parts, one after the other. */
  lemma {:induction false} ResponseTextAppend(a: seq<string>, b: seq<string>, decode: string -> Option<Json>)
    ensures ResponseText(a + b, decode) == ResponseText(a, decode) + ResponseText(b, decode)
    decreases |b|
  {
    if b == [] {
      assert a + b == a;
    } else {
      var b', last := b[..|b| - 1], b[|b| - 1];
      var ab := a + b;
      assert ab[..|ab| - 1] == a + b';
      assert ab[|ab| - 1] == last;
      ResponseTextAppend(a, b', decode);
      AppendAssoc(ResponseText(a, decode), ResponseText(b', decode), ContentOf(last, decode).GetOr(""));
    }
  }

  /** A line that does not parse adds nothing, wherever it comes. */
  lemma SkippedLine(a: seq<string>, line: string, b: seq<string>, decode: string -> Option<Json>)
    requires ContentOf(line, decode).None?
    ensures ResponseText(a + [line] + b, decode) == ResponseText(a + b, decode)
  {
    ResponseTextAppend(a + [line], b, decode);
    ResponseTextAppend(a, [line], decode);
    ResponseTextAppend(a, b, decode);
    assert [line][..0] == [];
  }

  /** One more line of the stream: its content, if any, extends the reply and replaces the placeholder. */
  lemma PrefixStep(lines: seq<string>, i: nat, decode: string -> Option<Json>)
    requires i < |lines|
    ensures ResponseText(lines[..i + 1], decode) == ResponseText(lines[..i], decode) + ContentOf(lines[i], decode).GetOr("")
    ensures AnyContent(lines[..i + 1], decode) <==> AnyContent(lines[..i], decode) || ContentOf(lines[i], decode).Some?
  {
    var p, p' := lines[..i], lines[..i + 1];
    assert p'[..i] == p && p'[i] == lines[i];
    if AnyContent(p, decode) {
      var k :| 0 <= k < i && ContentOf(p[k], decode).Some?;
      assert p'[k] == p[k];
    }
    if AnyContent(p', decode) && ContentOf(lines[i], decode).None? {
      var k :| 0 <= k < i + 1 && ContentOf(p'[k], decode).Some?;
      assert k < i && p[k] == p'[k];
    }
  }

  /** The reply message after the stream: the error, else the text, else what was there. */
  function FinalMessage(before: ChatMessage, lines: seq<string>, failure: Option<string>,
                        decode: string -> Option<Json>): (m: ChatMessage)
    ensures failure.Some? ==> m == ChatMessage("Error: " + failure.value, false)
    ensures failure.None? && AnyContent(lines, decode) ==> m == ChatMessage(ResponseText(lines, decode), false)
    ensures failure.None? && !AnyContent(lines, decode) ==> m == before
  {
    if failure.Some? then ChatMessage("Error: " + failure.value, false)
    else if AnyContent(lines, decode) then ChatMessage(ResponseText(lines, decode), false)
    else before
  }

  class ChatView {
    var messages: seq<ChatMessage>
    var inputText: string
    var isLoading: bool

    constructor ()
      ensures messages == [] && inputText == "" && !isLoading
    {
      messages := [];
      inputText := "";
      isLoading := false;
    }

    /**
     * `sendMessage`: with text typed, the user's message and a placeholder
     * reply are appended, and the prompt to stream is returned.
     */
    method SendMessage() returns (prompt: Option<string>)
      modifies this
      ensures old(inputText) == "" ==> prompt.None? && unchanged(this)
      ensures old(inputText) != "" ==>
                prompt == Some(old(inputText))
                && messages == old(messages) + [ChatMessage(old(inputText), true), ChatMessage(Placeholder, false)]
                && inputText == "" && isLoading
    {
      if inputText == "" {
        return None;
      }
      messages := messages + [ChatMessage(inputText, true)];
      prompt := Some(inputText);
      inputText := "";
      isLoading := true;
      messages := messages + [ChatMessage(Placeholder, false)];
    }

    /**
     * `streamChat`: `lines` arrive before the stream ends, or before it
     * fails with `failure`. The last message, the placeholder, shows the
     * text so far after every line that parses, and the error on failure.
     */
    method StreamChat(prompt: string, lines: seq<string>, failure: Option<string>,
                      decode: string -> Option<Json>) returns (request: Json)
      requires messages != []
      modifies this
      ensures request == ChatBody(prompt)
      ensures messages == old(messages)[..|old(messages)| - 1]
                          + [FinalMessage(old(messages)[|old(messages)| - 1], lines, failure, decode)]
      ensures !isLoading && inputText == old(inputText)
    {
      request := ChatBody(prompt);
      var responseText := "";
      var responseIndex := |messages| - 1;
      var i := 0;
      while i < |lines|
        invariant 0 <= i <= |lines|
        invariant responseText == ResponseText(lines[..i], decode)
        invariant messages == old(messages)[..responseIndex]
                              + [if AnyContent(lines[..i], decode) then ChatMessage(responseText, false)
                                 else old(messages)[responseIndex]]
        invariant inputText == old(inputText)
      {
        PrefixStep(lines, i, decode);
        var content := ContentOf(lines[i], decode);
        if content.Some? {
          responseText := responseText + content.value;
          messages := messages[responseIndex := ChatMessage(responseText, false)];
        }
        i := i + 1;
      }
      assert lines[..i] == lines;
      if failure.Some? {
        messages := messages[|messages| - 1 := ChatMessage("Error: " + failure.value, false)];
      }
      isLoading := false;
    }
  }

  /**
   * A whole exchange from an idle window: the user's message stays, and the
   * reply is the streamed text (or the error, or the placeholder when no
   * line parsed).
   */
  lemma ExchangeTranscript(history: seq<ChatMessage>, prompt: string, lines: seq<string>,
                           failure: Option<string>, decode: string -> Option<Json>)
    ensures var before := history + [ChatMessage(prompt, true), ChatMessage(Placeholder, false)];
            var after := before[..|before| - 1] + [FinalMessage(before[|before| - 1], lines, failure, decode)];
            |after| == |history| + 2 && after[..|history|] == history && after[|history|] == ChatMessage(prompt, true)
            && !after[|history| + 1].isUser
            && (failure.None? && lines != [] && ContentOf(lines[|lines| - 1], decode).Some? ==>
                  after[|history| + 1].text == ResponseText(lines[..|lines| - 1], decode)
                                               + ContentOf(lines[|lines| - 1], decode).value)
  {
    var before := history + [ChatMessage(prompt, true), ChatMessage(Placeholder, false)];
    assert before[..|before| - 1] == history + [ChatMessage(prompt, true)];
    if failure.None? && lines != [] && ContentOf(lines[|lines| - 1], decode).Some? {
      assert AnyContent(lines, decode);
    }
  }
}
