/**
 * How the server answers a chat on the data channel: the messages it sends
 * (`sendMessage`, encrypted once end-to-end encryption is on), the TTFT
 * store, and the two ways `proxyOllamaStream` relays a model's reply: the
 * fast client's callbacks, or its own decode loop over Ollama's stream.
 * Times are integer nanoseconds given as inputs; the model server is a
 * function from the request to what comes back.
 */
module Relay {
  import opened Wrappers
  import opened Text
  import opened NoiseStub
  import opened FastOllama
  import opened ModelManagement
  import opened AccessGuard

  // ---------------------------------------------------------------------
  // Messages and frames

  /** `ServerMsg`, one variant per op the server sends. */
  datatype ServerMsg =
    | NoisePubKey(publicKey: seq<Byte>)
    | NoiseResponse(response: seq<Byte>)
    | E2EEstablished
    | Pong
    | Delta(content: string)
    | Done
    | Error(error: string)

  /** What goes over the data channel: a text message (`SendText`) or bytes (`Send`). */
  datatype Frame = TextFrame(msg: ServerMsg) | BinaryFrame(data: seq<Byte>)

  /** The data channel, as the list of frames sent on it. */
  class DataChannel {
    var sent: seq<Frame>

    constructor ()
      ensures sent == []
    {
      sent := [];
    }

    method SendText(msg: ServerMsg)
      modifies this
      ensures sent == old(sent) + [TextFrame(msg)]
    {
      sent := sent + [TextFrame(msg)];
    }

    method Send(data: seq<Byte>)
      modifies this
      ensures sent == old(sent) + [BinaryFrame(data)]
    {
      sent := sent + [BinaryFrame(data)];
    }
  }

  /**
   * The frame `sendMessage` produces: the JSON text as is, or, with
   * end-to-end encryption, its bytes through the cipher. `encode` stands
   * for `mustJSON`.
   */
  function WireFrame(msg: ServerMsg, isE2E: bool, devPlaintext: bool, encode: ServerMsg -> seq<Byte>): Frame {
    if isE2E then BinaryFrame(Cipher(devPlaintext, encode(msg))) else TextFrame(msg)
  }

  function Frames(msgs: seq<ServerMsg>, isE2E: bool, devPlaintext: bool, encode: ServerMsg -> seq<Byte>): (fs: seq<Frame>)
    ensures |fs| == |msgs|
  {
    seq(|msgs|, k requires 0 <= k < |msgs| => WireFrame(msgs[k], isE2E, devPlaintext, encode))
  }

  lemma FramesAppend(a: seq<ServerMsg>, b: seq<ServerMsg>, isE2E: bool, devPlaintext: bool, encode: ServerMsg -> seq<Byte>)
    ensures Frames(a + b, isE2E, devPlaintext, encode) == Frames(a, isE2E, devPlaintext, encode) + Frames(b, isE2E, devPlaintext, encode)
  {
    var l := Frames(a + b, isE2E, devPlaintext, encode);
    var r := Frames(a, isE2E, devPlaintext, encode) + Frames(b, isE2E, devPlaintext, encode);
    forall k | 0 <= k < |l| ensures l[k] == r[k] {
      if k < |a| {
        assert (a + b)[k] == a[k];
      } else {
        assert (a + b)[k] == b[k - |a|];
      }
    }
  }

  /** What a client reads from a frame: the text, or the bytes through the same cipher. */
  function Payload(f: Frame, devPlaintext: bool, encode: ServerMsg -> seq<Byte>): seq<Byte> {
    match f
    case TextFrame(m) => encode(m)
    case BinaryFrame(d) => Cipher(devPlaintext, d)
  }

  /** Encrypted frames are binary and plain ones text, and the reader recovers the message either way. */
  lemma WireFrameReadable(msg: ServerMsg, isE2E: bool, devPlaintext: bool, encode: ServerMsg -> seq<Byte>)
    ensures WireFrame(msg, isE2E, devPlaintext, encode).BinaryFrame? <==> isE2E
    ensures Payload(WireFrame(msg, isE2E, devPlaintext, encode), devPlaintext, encode) == encode(msg)
  {
    CipherRoundTrip(devPlaintext, encode(msg));
  }

  /** `sendMessage`: `Encrypt` never fails, so exactly one frame is sent. */
  method SendMessage(dc: DataChannel, noise: NoiseManager, peerID: string, msg: ServerMsg, isE2E: bool,
                     encode: ServerMsg -> seq<Byte>)
    modifies dc
    ensures dc.sent == old(dc.sent) + [WireFrame(msg, isE2E, noise.devPlaintext, encode)]
  {
    if isE2E {
      var encrypted, _ := noise.Encrypt(peerID, encode(msg));
      dc.Send(encrypted);
    } else {
      dc.SendText(msg);
    }
  }

  // ---------------------------------------------------------------------
  // TTFT measurements

  /** `Duration.Milliseconds`: whole milliseconds, truncated toward zero. */
  function Millis(d: int): (ms: int)
    ensures d >= 0 ==> ms >= 0 && ms * 1_000_000 <= d < (ms + 1) * 1_000_000
    ensures d < 0 ==> ms <= 0 && (-ms) * 1_000_000 <= -d < (-ms + 1) * 1_000_000
  {
    if d >= 0 then d / 1_000_000 else -((-d) / 1_000_000)
  }

  class TTFTMetrics {
    var measurements: seq<int>

    constructor ()
      ensures measurements == []
    {
      measurements := [];
    }

    /** `Record`: appends the duration in milliseconds. */
    method Record(ttft: int)
      modifies this
      ensures measurements == old(measurements) + [Millis(ttft)]
    {
      measurements := measurements + [Millis(ttft)];
    }

    /** `GetStats`, the count part: the number of measurements. */
    method GetStats() returns (count: nat)
      ensures count == |measurements|
      ensures count == 0 <==> measurements == []
    {
      count := |measurements|;
    }
  }

  /** A fresh store that records every given duration reports their number. */
  method CountRecords(ttfts: seq<int>) returns (count: nat, m: TTFTMetrics)
    ensures count == |ttfts|
    ensures m.measurements == seq(|ttfts|, k requires 0 <= k < |ttfts| => Millis(ttfts[k]))
  {
    m := new TTFTMetrics();
    for i := 0 to |ttfts|
      invariant m.measurements == seq(i, k requires 0 <= k < i => Millis(ttfts[k]))
    {
      m.Record(ttfts[i]);
    }
    count := m.GetStats();
  }

  // ---------------------------------------------------------------------
  // The fast path: relaying StreamChat's callbacks

  /** The messages sent for the callbacks: an error for a failure, a delta for non-empty content. */
  function CallMsgs(calls: seq<Callback>): seq<ServerMsg>
    decreases |calls|
  {
    if calls == [] then []
    else CallMsg(calls[0]) + CallMsgs(calls[1..])
  }

  function CallMsg(c: Callback): seq<ServerMsg> {
    match c
    case Fail(e) => [Error(e)]
    case Token(content, _) => if content != "" then [Delta(content)] else []
  }

  /** What the fast path sends: the callbacks' messages, then `done` whatever happened. */
  function FastMsgs(calls: seq<Callback>): seq<ServerMsg> {
    CallMsgs(calls) + [Done]
  }

  /** The TTFT record of the first non-empty token, if any. */
  function CallRecords(calls: seq<Callback>, start: int): seq<int>
    decreases |calls|
  {
    if calls == [] then []
    else if calls[0].Token? && calls[0].content != "" then [Millis(calls[0].at - start)]
    else CallRecords(calls[1..], start)
  }

  lemma CallStep(calls: seq<Callback>, i: nat, start: int)
    requires i < |calls|
    ensures CallMsgs(calls[i..]) == CallMsg(calls[i]) + CallMsgs(calls[i + 1..])
    ensures CallRecords(calls[i..], start) ==
              if calls[i].Token? && calls[i].content != "" then [Millis(calls[i].at - start)]
              else CallRecords(calls[i + 1..], start)
  {
    assert calls[i..][0] == calls[i] && calls[i..][1..] == calls[i + 1..];
  }

  /** The fast path's choice of prompt and model. */
  function FastModel(model: string, prompt: string): string {
    if model == "" || model == "qwen2.5:3b" then GetFastestModel(Utf8Len(OptimizePrompt(prompt))) else model
  }

  /** The TTFT record a step adds: only the first non-empty token records one. */
  function StepRecord(first: bool, deltaSent: bool, at: int, start: int): seq<int> {
    if !first && deltaSent then [Millis(at - start)] else []
  }

  /** The callback passed to StreamChat, for one call. */
  method RelayCall(dc: DataChannel, noise: NoiseManager, metrics: TTFTMetrics, peerID: string,
                   c: Callback, isE2E: bool, encode: ServerMsg -> seq<Byte>, start: int, first: bool)
    returns (first': bool)
    modifies dc, metrics
    ensures dc.sent == old(dc.sent) + Frames(CallMsg(c), isE2E, noise.devPlaintext, encode)
    ensures metrics.measurements == old(metrics.measurements)
              + StepRecord(first, c.Token? && c.content != "", if c.Token? then c.at else 0, start)
    ensures first' <==> first || (c.Token? && c.content != "")
  {
    first' := first;
    match c {
      case Fail(e) =>
        SendMessage(dc, noise, peerID, Error(e), isE2E, encode);
      case Token(content, at) =>
        if content != "" {
          if !first' {
            metrics.Record(at - start);
            first' := true;
          }
          SendMessage(dc, noise, peerID, Delta(content), isE2E, encode);
        }
    }
  }

  /** The loop invariant of the fast path survives one call. */
  lemma FastStep(calls: seq<Callback>, i: nat, start: int, msgs: seq<ServerMsg>, first: bool,
                 before: seq<int>, now: seq<int>, base: seq<int>)
    requires i < |calls|
    requires msgs + CallMsgs(calls[i..]) == CallMsgs(calls)
    requires first ==> before == base + CallRecords(calls, start)
    requires !first ==> before == base && CallRecords(calls[i..], start) == CallRecords(calls, start)
    requires now == before + StepRecord(first, calls[i].Token? && calls[i].content != "",
                                        if calls[i].Token? then calls[i].at else 0, start)
    ensures (msgs + CallMsg(calls[i])) + CallMsgs(calls[i + 1..]) == CallMsgs(calls)
    ensures var first' := first || (calls[i].Token? && calls[i].content != "");
            (first' ==> now == base + CallRecords(calls, start))
            && (!first' ==> now == base && CallRecords(calls[i + 1..], start) == CallRecords(calls, start))
  {
    CallStep(calls, i, start);
    assert msgs + (CallMsg(calls[i]) + CallMsgs(calls[i + 1..])) == (msgs + CallMsg(calls[i])) + CallMsgs(calls[i + 1..]);
  }

  /**
   * `proxyOllamaStream` with the fast client: the prompt is cleaned up,
   * the default model replaced by one sized to the prompt, each callback
   * relayed, the first token's TTFT recorded, and `done` sent last.
   */
  method ProxyFast(dc: DataChannel, noise: NoiseManager, metrics: TTFTMetrics, peerID: string,
                   model: string, prompt: string, isE2E: bool, encode: ServerMsg -> seq<Byte>,
                   start: int, answer: (string, string) -> Reply)
    modifies dc, metrics
    ensures var reply := answer(FastModel(model, prompt), OptimizePrompt(prompt));
            dc.sent == old(dc.sent) + Frames(FastMsgs(Calls(reply)), isE2E, noise.devPlaintext, encode)
            && metrics.measurements == old(metrics.measurements) + CallRecords(Calls(reply), start)
  {
    var p := OptimizePrompt(prompt);
    var m := model;
    if m == "" || m == "qwen2.5:3b" {
      m := GetFastestModel(Utf8Len(p));
    }
    RelayReply(dc, noise, metrics, peerID, answer(m, p), isE2E, encode, start);
  }

  /** The fast path once the request is made: every callback relayed, then `done`. */
  method RelayReply(dc: DataChannel, noise: NoiseManager, metrics: TTFTMetrics, peerID: string,
                    reply: Reply, isE2E: bool, encode: ServerMsg -> seq<Byte>, start: int)
    modifies dc, metrics
    ensures dc.sent == old(dc.sent) + Frames(FastMsgs(Calls(reply)), isE2E, noise.devPlaintext, encode)
    ensures metrics.measurements == old(metrics.measurements) + CallRecords(Calls(reply), start)
  {
    var calls := StreamChat(reply);
    RelayCalls(dc, noise, metrics, peerID, calls, isE2E, encode, start);
    SendMessage(dc, noise, peerID, Done, isE2E, encode);
    FramesAppend(CallMsgs(calls), [Done], isE2E, noise.devPlaintext, encode);
    assert Frames([Done], isE2E, noise.devPlaintext, encode) == [WireFrame(Done, isE2E, noise.devPlaintext, encode)];
  }

  /** StreamChat's callback applied to each call in turn. */
  method RelayCalls(dc: DataChannel, noise: NoiseManager, metrics: TTFTMetrics, peerID: string,
                    calls: seq<Callback>, isE2E: bool, encode: ServerMsg -> seq<Byte>, start: int)
    modifies dc, metrics
    ensures dc.sent == old(dc.sent) + Frames(CallMsgs(calls), isE2E, noise.devPlaintext, encode)
    ensures metrics.measurements == old(metrics.measurements) + CallRecords(calls, start)
  {
    var firstTokenSent := false;
    ghost var msgs: seq<ServerMsg> := [];
    ghost var sent0 := dc.sent;
    ghost var base := metrics.measurements;
    for i := 0 to |calls|
      invariant dc.sent == sent0 + Frames(msgs, isE2E, noise.devPlaintext, encode)
      invariant msgs + CallMsgs(calls[i..]) == CallMsgs(calls)
      invariant firstTokenSent ==> metrics.measurements == base + CallRecords(calls, start)
      invariant !firstTokenSent ==> metrics.measurements == base
                                    && CallRecords(calls[i..], start) == CallRecords(calls, start)
    {
      ghost var before := metrics.measurements;
      var first' := RelayCall(dc, noise, metrics, peerID, calls[i], isE2E, encode, start, firstTokenSent);
      FastStep(calls, i, start, msgs, firstTokenSent, before, metrics.measurements, base);
      FramesAppend(msgs, CallMsg(calls[i]), isE2E, noise.devPlaintext, encode);
      msgs := msgs + CallMsg(calls[i]);
      firstTokenSent := first';
    }
    assert calls[|calls|..] == [];
    assert msgs == CallMsgs(calls);
  }

  lemma {:induction false} CallMsgsAppend(a: seq<Callback>, b: seq<Callback>)
    ensures CallMsgs(a + b) == CallMsgs(a) + CallMsgs(b)
    decreases |a|
  {
    if a == [] {
      assert a + b == b;
    } else {
      assert (a + b)[0] == a[0] && (a + b)[1..] == a[1..] + b;
      CallMsgsAppend(a[1..], b);
      AppendAssoc(CallMsg(a[0]), CallMsgs(a[1..]), CallMsgs(b));
    }
  }

  /** The texts of the deltas among messages. */
  function DeltaTexts(msgs: seq<ServerMsg>): seq<string>
    decreases |msgs|
  {
    if msgs == [] then []
    else (if msgs[0].Delta? then [msgs[0].content] else []) + DeltaTexts(msgs[1..])
  }

  lemma {:induction false} DeltaTextsAppend(a: seq<ServerMsg>, b: seq<ServerMsg>)
    ensures DeltaTexts(a + b) == DeltaTexts(a) + DeltaTexts(b)
    decreases |a|
  {
    if a == [] {
      assert a + b == b;
    } else {
      assert (a + b)[0] == a[0] && (a + b)[1..] == a[1..] + b;
      DeltaTextsAppend(a[1..], b);
      AppendAssoc(if a[0].Delta? then [a[0].content] else [], DeltaTexts(a[1..]), DeltaTexts(b));
    }
  }

  /** The deltas the fast path sends carry exactly the callback tokens, in order. */
  lemma {:induction false} FastDeltasAreTokens(calls: seq<Callback>)
    requires forall k :: 0 <= k < |calls| && calls[k].Token? ==> calls[k].content != ""
    ensures DeltaTexts(FastMsgs(calls)) == TokenTexts(calls)
    decreases |calls|
  {
    DeltaTextsAppend(CallMsgs(calls), [Done]);
    assert DeltaTexts([Done]) == [];
    if calls != [] {
      FastDeltasAreTokens(calls[1..]);
      DeltaTextsAppend(CallMsg(calls[0]), CallMsgs(calls[1..]));
      DeltaTextsAppend(CallMsgs(calls[1..]), [Done]);
    }
  }

  /**
   * For a clean reply, the deltas are the non-empty contents of the lines
   * up to and including the first done line, in order.
   */
  lemma FastDeltasAreContents(items: seq<Item>, n: nat)
    requires n <= |items|
    requires forall k :: 0 <= k < n ==> items[k].Decoded? && !IsDoneLine(items[k])
    requires n == |items| || IsDoneLine(items[n])
    ensures DeltaTexts(FastMsgs(Calls(Body(items)))) == Contents(items[..if n == |items| then n else n + 1])
  {
    TokensNonEmpty(items);
    FastDeltasAreTokens(ItemCalls(items));
    TokensAreContents(items, n);
  }

  /** The fast path always ends with `done`, even after an error. */
  lemma FastEndsWithDone(calls: seq<Callback>)
    ensures |FastMsgs(calls)| >= 1 && FastMsgs(calls)[|FastMsgs(calls)| - 1] == Done
    ensures forall e :: Error(e) in FastMsgs(calls) ==> Done in FastMsgs(calls)
  {
  }

  /** A failed request gives an error and then `done`. */
  lemma FastRequestFailure(reply: Reply)
    requires reply.RequestFailed? || reply.TransportFailed?
    ensures FastMsgs(Calls(reply)) == [Error(reply.err), Done]
  {
    assert CallMsgs([Fail(reply.err)]) == [Error(reply.err)] + CallMsgs([]);
  }

  /** At most one TTFT is recorded, and one is exactly when some delta is sent. */
  lemma {:induction false} CallRecordsAtMostOne(calls: seq<Callback>, start: int)
    ensures |CallRecords(calls, start)| <= 1
    ensures CallRecords(calls, start) != [] <==> exists k :: 0 <= k < |CallMsgs(calls)| && CallMsgs(calls)[k].Delta?
    decreases |calls|
  {
    if calls != [] {
      CallRecordsAtMostOne(calls[1..], start);
      var h := CallMsg(calls[0]);
      var t := CallMsgs(calls[1..]);
      assert CallMsgs(calls) == h + t;
      if calls[0].Token? && calls[0].content != "" {
        assert CallMsgs(calls)[0].Delta?;
      } else {
        assert forall k :: 0 <= k < |h| ==> !h[k].Delta?;
        forall k | 0 <= k < |h + t| && (h + t)[k].Delta?
          ensures exists j :: 0 <= j < |t| && t[j].Delta?
        {
          assert (h + t)[k] == t[k - |h|];
        }
        forall j | 0 <= j < |t| && t[j].Delta?
          ensures (h + t)[j + |h|].Delta?
        {
          assert (h + t)[j + |h|] == t[j];
        }
      }
    }
  }

  /** The recorded TTFT is measured at the first non-empty token. */
  lemma {:induction false} CallRecordsFirstToken(calls: seq<Callback>, k: nat, start: int)
    requires k < |calls| && calls[k].Token? && calls[k].content != ""
    requires forall j :: 0 <= j < k ==> !(calls[j].Token? && calls[j].content != "")
    ensures CallRecords(calls, start) == [Millis(calls[k].at - start)]
    decreases k
  {
    if k > 0 {
      CallRecordsFirstToken(calls[1..], k - 1, start);
    }
  }

  // ---------------------------------------------------------------------
  // The slow path: proxyOllamaStream's own decode loop

  /** The `options` the slow path sends: num_predict 512, then the model's settings on top. */
  const SlowBase: map<string, OptionValue> := map["num_predict" := IntValue(512)]

  datatype ChatRequest = ChatRequest(model: string, prompt: string, stream: bool, options: map<string, OptionValue>)

  /** The `ln` record, reused across lines: only the fields a line carries are overwritten. */
  datatype Ln = Ln(content: string, done: bool)

  const FreshLn := Ln("", false)

  function Merge(ln: Ln, line: Line): Ln {
    Ln(line.content.GetOr(ln.content), line.done.GetOr(ln.done))
  }

  /** The delta a merged record sends, if its content is non-empty. */
  function LnMsgs(l: Ln): seq<ServerMsg> {
    if l.content != "" then [Delta(l.content)] else []
  }

  /** The messages the slow loop sends from here: deltas, then `done` at EOF or a done line, or a decode error. */
  function SlowMsgs(items: seq<Item>, ln: Ln): (r: seq<ServerMsg>)
    ensures |r| >= 1
    decreases |items|
  {
    if items == [] then [Done]
    else match items[0]
      case Garbled(_) => [Error("decode error")]
      case Decoded(line, _) =>
        var l := Merge(ln, line);
        LnMsgs(l) + (if l.done then [Done] else SlowMsgs(items[1..], l))
  }

  /** The TTFT record of the slow loop: the time of the first line that sends a delta. */
  function SlowRecords(items: seq<Item>, ln: Ln, start: int): seq<int>
    decreases |items|
  {
    if items == [] then []
    else match items[0]
      case Garbled(_) => []
      case Decoded(line, at) =>
        var l := Merge(ln, line);
        if l.content != "" then [Millis(at - start)]
        else if l.done then []
        else SlowRecords(items[1..], l, start)
  }

  lemma SlowStep(items: seq<Item>, i: nat, ln: Ln, start: int)
    requires i < |items|
    ensures SlowMsgs(items[i..], ln) ==
              match items[i]
              case Garbled(_) => [Error("decode error")]
              case Decoded(line, _) =>
                LnMsgs(Merge(ln, line)) + (if Merge(ln, line).done then [Done] else SlowMsgs(items[i + 1..], Merge(ln, line)))
    ensures SlowRecords(items[i..], ln, start) ==
              match items[i]
              case Garbled(_) => []
              case Decoded(line, at) =>
                if Merge(ln, line).content != "" then [Millis(at - start)]
                else if Merge(ln, line).done then []
                else SlowRecords(items[i + 1..], Merge(ln, line), start)
  {
    assert items[i..][0] == items[i] && items[i..][1..] == items[i + 1..];
  }

  /** The body of the slow loop for one decoded record: merge it into `ln` and send its delta. */
  method RelayLine(dc: DataChannel, noise: NoiseManager, metrics: TTFTMetrics, peerID: string,
                   ln: Ln, line: Line, at: int, isE2E: bool, encode: ServerMsg -> seq<Byte>, start: int, first: bool)
    returns (ln': Ln, first': bool)
    modifies dc, metrics
    ensures ln' == Merge(ln, line)
    ensures dc.sent == old(dc.sent) + Frames(LnMsgs(ln'), isE2E, noise.devPlaintext, encode)
    ensures metrics.measurements == old(metrics.measurements) + StepRecord(first, ln'.content != "", at, start)
    ensures first' <==> first || ln'.content != ""
  {
    ln' := Merge(ln, line);
    first' := first;
    if ln'.content != "" {
      if !first' {
        metrics.Record(at - start);
        first' := true;
      }
      SendMessage(dc, noise, peerID, Delta(ln'.content), isE2E, encode);
      assert Frames(LnMsgs(ln'), isE2E, noise.devPlaintext, encode) == [WireFrame(Delta(ln'.content), isE2E, noise.devPlaintext, encode)];
    }
  }

  /** The slow loop's messages from a decoded record on. */
  lemma SlowStepDecoded(items: seq<Item>, i: nat, ln: Ln)
    requires i < |items| && items[i].Decoded?
    ensures var l := Merge(ln, items[i].line);
            SlowMsgs(items[i..], ln) == LnMsgs(l) + (if l.done then [Done] else SlowMsgs(items[i + 1..], l))
  {
    assert items[i..][0] == items[i] && items[i..][1..] == items[i + 1..];
  }

  /** The message part of the slow loop's invariant survives a decoded record. */
  lemma SlowDecodedMsgs(items: seq<Item>, i: nat, ln: Ln, msgs: seq<ServerMsg>, whole: seq<ServerMsg>)
    requires i < |items| && items[i].Decoded?
    requires msgs + SlowMsgs(items[i..], ln) == whole
    ensures var l := Merge(ln, items[i].line);
            (l.done ==> (msgs + LnMsgs(l)) + [Done] == whole)
            && (!l.done ==> (msgs + LnMsgs(l)) + SlowMsgs(items[i + 1..], l) == whole)
  {
    SlowStepDecoded(items, i, ln);
    var l := Merge(ln, items[i].line);
    var rest := if l.done then [Done] else SlowMsgs(items[i + 1..], l);
    assert msgs + (LnMsgs(l) + rest) == (msgs + LnMsgs(l)) + rest;
  }

  /** The TTFT part of the slow loop's invariant survives a decoded record. */
  lemma SlowDecodedRecords(items: seq<Item>, i: nat, ln: Ln, start: int, first: bool,
                           before: seq<int>, now: seq<int>, base: seq<int>)
    requires i < |items| && items[i].Decoded?
    requires first ==> before == base + SlowRecords(items, FreshLn, start)
    requires !first ==> before == base && SlowRecords(items[i..], ln, start) == SlowRecords(items, FreshLn, start)
    requires now == before + StepRecord(first, Merge(ln, items[i].line).content != "", items[i].at, start)
    ensures var l := Merge(ln, items[i].line);
            var first' := first || l.content != "";
            (first' ==> now == base + SlowRecords(items, FreshLn, start))
            && (!first' ==> now == base
                            && (l.done ==> SlowRecords(items, FreshLn, start) == [])
                            && (!l.done ==> SlowRecords(items[i + 1..], l, start) == SlowRecords(items, FreshLn, start)))
  {
    SlowStep(items, i, ln, start);
  }

  /** The slow decode loop over Ollama's reply, up to EOF, a done record or a decode error. */
  method SlowLoop(dc: DataChannel, noise: NoiseManager, metrics: TTFTMetrics, peerID: string,
                  items: seq<Item>, isE2E: bool, encode: ServerMsg -> seq<Byte>, start: int)
    modifies dc, metrics
    ensures dc.sent == old(dc.sent) + Frames(SlowMsgs(items, FreshLn), isE2E, noise.devPlaintext, encode)
    ensures metrics.measurements == old(metrics.measurements) + SlowRecords(items, FreshLn, start)
  {
    var ln := FreshLn;
    var firstTokenSent := false;
    ghost var msgs: seq<ServerMsg> := [];
    ghost var sent0 := dc.sent;
    ghost var base := metrics.measurements;
    var i := 0;
    while i < |items|
      invariant 0 <= i <= |items|
      invariant dc.sent == sent0 + Frames(msgs, isE2E, noise.devPlaintext, encode)
      invariant msgs + SlowMsgs(items[i..], ln) == SlowMsgs(items, FreshLn)
      invariant firstTokenSent ==> metrics.measurements == base + SlowRecords(items, FreshLn, start)
      invariant !firstTokenSent ==> metrics.measurements == base
                                    && SlowRecords(items[i..], ln, start) == SlowRecords(items, FreshLn, start)
      decreases |items| - i
    {
      match items[i] {
        case Garbled(_) =>
          SlowGarbled(dc, noise, peerID, items, i, ln, isE2E, encode, start, msgs, sent0);
          return;
        case Decoded(_, _) =>
          ghost var msgs';
          ln, firstTokenSent, msgs' := SlowRecord(dc, noise, metrics, peerID, items, i, ln, isE2E, encode, start,
                                                  firstTokenSent, msgs, sent0, base);
          msgs := msgs';
          if ln.done {
            SendDone(dc, noise, peerID, isE2E, encode, msgs);
            return;
          }
      }
      i := i + 1;
    }
    assert items[i..] == [];
    SendDone(dc, noise, peerID, isE2E, encode, msgs);
  }

  /** A record that does not decode ends the slow loop with the decode error. */
  method SlowGarbled(dc: DataChannel, noise: NoiseManager, peerID: string, items: seq<Item>, i: nat, ln: Ln,
                     isE2E: bool, encode: ServerMsg -> seq<Byte>, start: int,
                     ghost msgs: seq<ServerMsg>, ghost sent0: seq<Frame>)
    requires i < |items| && items[i].Garbled?
    requires dc.sent == sent0 + Frames(msgs, isE2E, noise.devPlaintext, encode)
    modifies dc
    ensures dc.sent == sent0 + Frames(msgs + SlowMsgs(items[i..], ln), isE2E, noise.devPlaintext, encode)
    ensures SlowRecords(items[i..], ln, start) == []
  {
    SlowStep(items, i, ln, start);
    SendMessage(dc, noise, peerID, Error("decode error"), isE2E, encode);
    FramesAppend(msgs, [Error("decode error")], isE2E, noise.devPlaintext, encode);
    assert Frames([Error("decode error")], isE2E, noise.devPlaintext, encode)
        == [WireFrame(Error("decode error"), isE2E, noise.devPlaintext, encode)];
  }

  /** One decoded record in the slow loop, with the loop invariant carried over it. */
  method SlowRecord(dc: DataChannel, noise: NoiseManager, metrics: TTFTMetrics, peerID: string,
                    items: seq<Item>, i: nat, ln: Ln, isE2E: bool, encode: ServerMsg -> seq<Byte>, start: int,
                    first: bool, ghost msgs: seq<ServerMsg>, ghost sent0: seq<Frame>, ghost base: seq<int>)
    returns (ln': Ln, first': bool, ghost msgs': seq<ServerMsg>)
    requires i < |items| && items[i].Decoded?
    requires dc.sent == sent0 + Frames(msgs, isE2E, noise.devPlaintext, encode)
    requires msgs + SlowMsgs(items[i..], ln) == SlowMsgs(items, FreshLn)
    requires first ==> metrics.measurements == base + SlowRecords(items, FreshLn, start)
    requires !first ==> metrics.measurements == base && SlowRecords(items[i..], ln, start) == SlowRecords(items, FreshLn, start)
    modifies dc, metrics
    ensures ln' == Merge(ln, items[i].line)
    ensures dc.sent == sent0 + Frames(msgs', isE2E, noise.devPlaintext, encode)
    ensures ln'.done ==> msgs' + [Done] == SlowMsgs(items, FreshLn)
    ensures !ln'.done ==> msgs' + SlowMsgs(items[i + 1..], ln') == SlowMsgs(items, FreshLn)
    ensures first' ==> metrics.measurements == base + SlowRecords(items, FreshLn, start)
    ensures !first' ==> metrics.measurements == base
                        && (ln'.done ==> SlowRecords(items, FreshLn, start) == [])
                        && (!ln'.done ==> SlowRecords(items[i + 1..], ln', start) == SlowRecords(items, FreshLn, start))
  {
    ghost var before := metrics.measurements;
    ln', first' := RelayLine(dc, noise, metrics, peerID, ln, items[i].line, items[i].at, isE2E, encode, start, first);
    SlowDecodedMsgs(items, i, ln, msgs, SlowMsgs(items, FreshLn));
    SlowDecodedRecords(items, i, ln, start, first, before, metrics.measurements, base);
    FramesAppend(msgs, LnMsgs(ln'), isE2E, noise.devPlaintext, encode);
    msgs' := msgs + LnMsgs(ln');
  }

  /** Sends the final `done`, after the messages `msgs` already sent. */
  method SendDone(dc: DataChannel, noise: NoiseManager, peerID: string, isE2E: bool, encode: ServerMsg -> seq<Byte>,
                  ghost msgs: seq<ServerMsg>)
    modifies dc
    ensures dc.sent == old(dc.sent) + [WireFrame(Done, isE2E, noise.devPlaintext, encode)]
    ensures forall s0 :: old(dc.sent) == s0 + Frames(msgs, isE2E, noise.devPlaintext, encode) ==>
              dc.sent == s0 + Frames(msgs + [Done], isE2E, noise.devPlaintext, encode)
  {
    SendMessage(dc, noise, peerID, Done, isE2E, encode);
    FramesAppend(msgs, [Done], isE2E, noise.devPlaintext, encode);
    assert Frames([Done], isE2E, noise.devPlaintext, encode) == [WireFrame(Done, isE2E, noise.devPlaintext, encode)];
  }

  /** The slow loop sends deltas only, then exactly one of `done` and the decode error, last. */
  lemma {:induction false} SlowMsgsShape(items: seq<Item>, ln: Ln)
    ensures var r := SlowMsgs(items, ln);
            |r| >= 1 && (r[|r| - 1] == Done || r[|r| - 1] == Error("decode error"))
            && forall k :: 0 <= k < |r| - 1 ==> r[k].Delta?
    decreases |items|
  {
    if items != [] && items[0].Decoded? {
      var l := Merge(ln, items[0].line);
      var rest := if l.done then [Done] else SlowMsgs(items[1..], l);
      if !l.done {
        SlowMsgsShape(items[1..], l);
      }
      var r := LnMsgs(l) + rest;
      forall k | 0 <= k < |r| - 1 ensures r[k].Delta? {
        if k >= |LnMsgs(l)| {
          assert r[k] == rest[k - |LnMsgs(l)|];
        }
      }
    }
  }

  /** A decode error means no `done` is sent, and `done` means no error. */
  lemma SlowErrorXorDone(items: seq<Item>, ln: Ln)
    ensures Done in SlowMsgs(items, ln) <==> Error("decode error") !in SlowMsgs(items, ln)
  {
    SlowMsgsShape(items, ln);
    var r := SlowMsgs(items, ln);
    if Done in r {
      var k :| 0 <= k < |r| && r[k] == Done;
      assert k == |r| - 1;
    }
    if Error("decode error") in r {
      var k :| 0 <= k < |r| && r[k] == Error("decode error");
      assert k == |r| - 1;
    }
  }

  /** At most one TTFT is recorded, and one exactly when the first message is a delta. */
  lemma {:induction false} SlowRecordsAtMostOne(items: seq<Item>, ln: Ln, start: int)
    ensures |SlowRecords(items, ln, start)| <= 1
    ensures SlowRecords(items, ln, start) != [] <==> SlowMsgs(items, ln)[0].Delta?
    decreases |items|
  {
    if items != [] && items[0].Decoded? {
      var l := Merge(ln, items[0].line);
      if l.content == "" && !l.done {
        SlowRecordsAtMostOne(items[1..], l, start);
      }
    }
  }

  /**
   * `ln` is reused: a record without `message.content` after one with
   * content `c` sends `c` again.
   */
  lemma SlowRepeatsContent(c: string, t1: int, t2: int, rest: seq<Item>)
    requires c != ""
    ensures var items := [Decoded(Line(Some(c), Some(false)), t1), Decoded(Line(None, None), t2)] + rest;
            SlowMsgs(items, FreshLn) == [Delta(c), Delta(c)] + SlowMsgs(rest, Ln(c, false))
  {
    var items := [Decoded(Line(Some(c), Some(false)), t1), Decoded(Line(None, None), t2)] + rest;
    var l := Ln(c, false);
    assert items[1..] == [Decoded(Line(None, None), t2)] + rest;
    assert items[1..][1..] == rest;
    assert SlowMsgs(items[1..], l) == [Delta(c)] + SlowMsgs(rest, l);
  }

  /** A line with content sends, on the fast path, the delta its merged record sends on the slow path. */
  lemma LineTokensMsgs(line: Line, at: int, ln: Ln)
    requires line.content.Some?
    ensures CallMsgs(LineTokens(line, at)) == LnMsgs(Merge(ln, line))
  {
    var toks := LineTokens(line, at);
    if toks != [] {
      assert toks[1..] == [];
    }
  }

  /** ... and records its time exactly when the merged record has content. */
  lemma LineTokensRecords(line: Line, at: int, ln: Ln, start: int, rest: seq<Callback>)
    requires line.content.Some?
    ensures CallRecords(LineTokens(line, at) + rest, start)
            == if Merge(ln, line).content != "" then [Millis(at - start)] else CallRecords(rest, start)
  {
    var toks := LineTokens(line, at);
    if toks != [] {
      assert (toks + rest)[0] == toks[0];
    } else {
      assert toks + rest == rest;
    }
  }

  lemma ItemCallsHead(items: seq<Item>)
    requires items != [] && items[0].Decoded?
    ensures ItemCalls(items) == LineTokens(items[0].line, items[0].at)
                                + (if items[0].line.done.GetOr(false) then [] else ItemCalls(items[1..]))
  {
  }

  /**
   * When every record carries its content and no decode error occurs,
   * the slow loop sends what the fast path sends.
   */
  lemma {:induction false} SlowAgreesWithFast(items: seq<Item>, ln: Ln)
    requires !ln.done
    requires forall k :: 0 <= k < |items| ==> items[k].Decoded? && items[k].line.content.Some?
    ensures SlowMsgs(items, ln) == FastMsgs(ItemCalls(items))
    decreases |items|
  {
    if items != [] {
      var line := items[0].line;
      var l := Merge(ln, line);
      var toks := LineTokens(line, items[0].at);
      LineTokensMsgs(line, items[0].at, ln);
      ItemCallsHead(items);
      var rest: seq<Callback> := if line.done.GetOr(false) then [] else ItemCalls(items[1..]);
      CallMsgsAppend(toks, rest);
      assert SlowMsgs(items, ln) == LnMsgs(l) + (if l.done then [Done] else SlowMsgs(items[1..], l));
      if line.done.GetOr(false) {
        assert CallMsgs(toks) + CallMsgs(rest) == CallMsgs(toks);
      } else {
        var tail := items[1..];
        assert forall k :: 0 <= k < |tail| ==> tail[k] == items[k + 1];
        SlowAgreesWithFast(tail, l);
        AppendAssoc(CallMsgs(toks), CallMsgs(rest), [Done]);
      }
    }
  }

  /** Under the same conditions, both paths record the same TTFT. */
  lemma {:induction false} SlowRecordsAgreeWithFast(items: seq<Item>, ln: Ln, start: int)
    requires !ln.done
    requires forall k :: 0 <= k < |items| ==> items[k].Decoded? && items[k].line.content.Some?
    ensures SlowRecords(items, ln, start) == CallRecords(ItemCalls(items), start)
    decreases |items|
  {
    if items != [] {
      var line := items[0].line;
      var l := Merge(ln, line);
      ItemCallsHead(items);
      var rest: seq<Callback> := if line.done.GetOr(false) then [] else ItemCalls(items[1..]);
      LineTokensRecords(line, items[0].at, ln, start, rest);
      if !line.done.GetOr(false) {
        var tail := items[1..];
        assert forall k :: 0 <= k < |tail| ==> tail[k] == items[k + 1];
        SlowRecordsAgreeWithFast(tail, l, start);
      }
    }
  }

  /** Copies every setting over `base`, one key at a time (the `for k, v := range` loop). */
  method MergeOptions(base: map<string, OptionValue>, settings: map<string, OptionValue>) returns (options: map<string, OptionValue>)
    ensures options == base + settings
  {
    options := base;
    var keys := settings.Keys;
    while keys != {}
      invariant keys <= settings.Keys
      invariant options == base + map k | k in settings.Keys - keys :: settings[k]
      decreases keys
    {
      var k :| k in keys;
      options := options[k := settings[k]];
      keys := keys - {k};
    }
    assert settings == map k | k in settings.Keys - keys :: settings[k];
  }

  /** The slow path's `options`: num_predict 512, with the manager's settings for the model on top. */
  method SlowOptions(model: string, hasManager: bool) returns (options: map<string, OptionValue>)
    ensures hasManager ==> options.Keys == {"num_predict"} + CommonKeys + (if model in GpuModels then {"num_gpu"} else {})
                           && options["num_predict"] == IntValue(512)
                           && options["num_ctx"] == IntValue(ContextSize(model))
    ensures !hasManager ==> options == SlowBase
  {
    options := SlowBase;
    if hasManager {
      var settings := GetOptimizedSettings(model);
      options := MergeOptions(options, settings);
    }
  }

  /**
   * `proxyOllamaStream` without the fast client. The server as built
   * never takes this branch: `main` always creates the fast client, so
   * the job always runs `ProxyFast`. `hasManager` tells
   * whether the model manager exists, `strict` is strict local mode and
   * `ollamaURL` the value of OLLAMA_URL with its default. The returned
   * request is the one sent, if any.
   */
  method ProxySlow(dc: DataChannel, noise: NoiseManager, metrics: TTFTMetrics, peerID: string,
                   model: string, prompt: string, isE2E: bool, encode: ServerMsg -> seq<Byte>,
                   start: int, hasManager: bool, strict: bool, ollamaURL: string,
                   answer: ChatRequest -> Option<seq<Item>>)
    returns (request: Option<ChatRequest>)
    modifies dc, metrics
    ensures strict && !IsLocalURL(ollamaURL) ==>
              request.None?
              && dc.sent == old(dc.sent) + [WireFrame(Error("Ollama URL violates strict local mode"), isE2E, noise.devPlaintext, encode)]
              && metrics.measurements == old(metrics.measurements)
    ensures request.Some? <==> !(strict && !IsLocalURL(ollamaURL))
    ensures request.Some? ==>
              request.value.model == model && request.value.prompt == prompt && request.value.stream
              && (hasManager ==> request.value.options.Keys == {"num_predict"} + CommonKeys + (if model in GpuModels then {"num_gpu"} else {})
                                 && request.value.options["num_predict"] == IntValue(512)
                                 && request.value.options["num_ctx"] == IntValue(ContextSize(model)))
              && (!hasManager ==> request.value.options == SlowBase)
    ensures request.Some? && answer(request.value).None? ==>
              dc.sent == old(dc.sent) + [WireFrame(Error("ollama connect failed"), isE2E, noise.devPlaintext, encode)]
              && metrics.measurements == old(metrics.measurements)
    ensures request.Some? && answer(request.value).Some? ==>
              var items := answer(request.value).value;
              dc.sent == old(dc.sent) + Frames(SlowMsgs(items, FreshLn), isE2E, noise.devPlaintext, encode)
              && metrics.measurements == old(metrics.measurements) + SlowRecords(items, FreshLn, start)
  {
    var options := SlowOptions(model, hasManager);
    if strict && !IsLocalURL(ollamaURL) {
      SendMessage(dc, noise, peerID, Error("Ollama URL violates strict local mode"), isE2E, encode);
      return None;
    }
    request := Some(ChatRequest(model, prompt, true, options));
    var reply := answer(request.value);
    if reply.None? {
      SendMessage(dc, noise, peerID, Error("ollama connect failed"), isE2E, encode);
      return;
    }
    SlowLoop(dc, noise, metrics, peerID, reply.value, isE2E, encode, start);
  }
}
