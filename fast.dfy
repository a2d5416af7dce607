/**
 * The server's fast Ollama path: model choice by prompt length, prompt
 * clean-up, the request options, and the loop that decodes Ollama's
 * newline-delimited JSON reply and hands each piece of content to a
 * callback.
 */
module FastOllama {
  import opened Wrappers
  import opened Text

  // ---------------------------------------------------------------------
  // Ollama's streamed reply, as decoded records

  /**
   * One decoded line of the /api/chat stream. A field the line does not
   * carry is None (`message.content` and `done` are the only ones read).
   */
  datatype Line = Line(content: Option<string>, done: Option<bool>)

  /** One step of the JSON decoder: a record (with the time it arrived, in nanoseconds) or a decode error. */
  datatype Item = Decoded(line: Line, at: int) | Garbled(err: string)

  /**
   * What the HTTP exchange yields: a failure to build the request, a
   * transport failure, or the response body as decoder steps up to EOF.
   */
  datatype Reply = RequestFailed(err: string) | TransportFailed(err: string) | Body(items: seq<Item>)

  /** One invocation of the `callback(content, err)` passed to StreamChat. */
  datatype Callback = Token(content: string, at: int) | Fail(err: string)

  // ---------------------------------------------------------------------
  // Model choice and prompt clean-up

  /** `GetFastestModel`: the smallest model for the shortest prompts. */
  function GetFastestModel(promptLength: int): (m: string)
    ensures m in {"smollm2:135m", "gemma3:270m", "qwen3:1.7b", "qwen3:4b"}
    ensures promptLength < 20 <==> m == "smollm2:135m"
    ensures 20 <= promptLength < 50 <==> m == "gemma3:270m"
    ensures 50 <= promptLength < 100 <==> m == "qwen3:1.7b"
    ensures promptLength >= 100 <==> m == "qwen3:4b"
  {
    if promptLength < 20 then "smollm2:135m"
    else if promptLength < 50 then "gemma3:270m"
    else if promptLength < 100 then "qwen3:1.7b"
    else "qwen3:4b"
  }

  /** Position of a model in order of size among those `GetFastestModel` picks. */
  function SizeRank(m: string): nat {
    if m == "smollm2:135m" then 0
    else if m == "gemma3:270m" then 1
    else if m == "qwen3:1.7b" then 2
    else 3
  }

  /** A longer prompt never gets a smaller model. */
  lemma GetFastestModelMonotone(a: int, b: int)
    requires a <= b
    ensures SizeRank(GetFastestModel(a)) <= SizeRank(GetFastestModel(b))
  {
  }

  /** `OptimizePrompt`: trimmed, and with "?" added to a short prompt that has none. */
  function OptimizePrompt(prompt: string): string {
    var p := TrimSpace(prompt);
    if Utf8Len(p) < 10 && !Contains(p, "?") then p + "?" else p
  }

  lemma QuestionMarkContained(p: string)
    ensures Contains(p + "?", "?")
  {
    assert OccursAt(p + "?", "?", |p|);
    ContainsAt(p + "?", "?", |p|);
  }

  /** The "?" is added exactly when the trimmed prompt is under 10 bytes and has none. */
  lemma OptimizePromptSpec(prompt: string)
    ensures var p := TrimSpace(prompt);
            var r := OptimizePrompt(prompt);
            (Utf8Len(p) < 10 && !Contains(p, "?") ==> r == p + "?")
            && (!(Utf8Len(p) < 10 && !Contains(p, "?")) ==> r == p)
            && Contains(r, "?") == (Contains(p, "?") || Utf8Len(p) < 10)
  {
    QuestionMarkContained(TrimSpace(prompt));
  }

  /** The result of `OptimizePrompt` has no white space at either end. */
  lemma OptimizePromptTrimmed(prompt: string)
    ensures NoLeadingSpace(OptimizePrompt(prompt)) && NoTrailingSpace(OptimizePrompt(prompt))
  {
    var p := TrimSpace(prompt);
    TrimSpaceSpec(prompt);
    var r := OptimizePrompt(prompt);
    if r != p {
      assert r == p + "?";
      assert r[|r| - 1] == '?';
      if p != [] { assert r[0] == p[0]; }
    }
  }

  /** Optimising twice is optimising once. */
  lemma OptimizePromptIdempotent(prompt: string)
    ensures OptimizePrompt(OptimizePrompt(prompt)) == OptimizePrompt(prompt)
  {
    var p := TrimSpace(prompt);
    var r := OptimizePrompt(prompt);
    OptimizePromptTrimmed(prompt);
    TrimSpaceNoop(r);
    if Utf8Len(p) < 10 && !Contains(p, "?") {
      QuestionMarkContained(p);
    } else {
      assert r == p;
    }
  }

  // ---------------------------------------------------------------------
  // The request options

  datatype OptionValue = IntValue(i: int) | RealValue(r: real)

  /** The fixed options of every fast request. */
  const BaseOptions: map<string, OptionValue> := map[
    "num_predict" := IntValue(512), "temperature" := RealValue(0.7), "top_k" := IntValue(40),
    "top_p" := RealValue(0.9), "repeat_penalty" := RealValue(1.1), "seed" := IntValue(42),
    "num_thread" := IntValue(4)]

  /** The `options` object StreamChat sends: the fixed ones, plus a small context for prompts under 50 bytes. */
  method RequestOptions(prompt: string) returns (options: map<string, OptionValue>)
    ensures Utf8Len(prompt) < 50 ==> options == BaseOptions["num_ctx" := IntValue(512)]["num_batch" := IntValue(256)]
    ensures Utf8Len(prompt) >= 50 ==> options == BaseOptions
    ensures BaseOptions.Keys <= options.Keys && forall k :: k in BaseOptions ==> options[k] == BaseOptions[k]
    ensures ("num_ctx" in options <==> Utf8Len(prompt) < 50) && ("num_batch" in options <==> Utf8Len(prompt) < 50)
  {
    options := BaseOptions;
    if Utf8Len(prompt) < 50 {
      options := options["num_ctx" := IntValue(512)];
      options := options["num_batch" := IntValue(256)];
    }
  }

  // ---------------------------------------------------------------------
  // The decode loop

  /** The callbacks for decoder steps: each non-empty content, up to a done line, EOF or a decode error. */
  function ItemCalls(items: seq<Item>): seq<Callback>
    decreases |items|
  {
    if items == [] then []
    else match items[0]
      case Garbled(e) => [Fail(e)]
      case Decoded(line, at) =>
        LineTokens(line, at) + (if line.done.GetOr(false) then [] else ItemCalls(items[1..]))
  }

  /** The token callback of one decoded line: none when its content is empty or absent. */
  function LineTokens(line: Line, at: int): (t: seq<Callback>)
    ensures |t| <= 1 && (t == [] <==> line.content.GetOr("") == "")
    ensures forall k :: 0 <= k < |t| ==> t[k] == Token(line.content.value, at)
  {
    var c := line.content.GetOr("");
    if c != "" then [Token(c, at)] else []
  }

  /** The callbacks StreamChat makes for a reply. */
  function Calls(reply: Reply): seq<Callback> {
    match reply
    case RequestFailed(e) => [Fail(e)]
    case TransportFailed(e) => [Fail(e)]
    case Body(items) => ItemCalls(items)
  }

  /** `StreamChat` after the request: the callbacks of a reply. */
  method StreamChat(reply: Reply) returns (calls: seq<Callback>)
    ensures calls == Calls(reply)
  {
    match reply {
      case RequestFailed(e) => calls := [Fail(e)];
      case TransportFailed(e) => calls := [Fail(e)];
      case Body(items) => calls := DecodeLoop(items);
    }
  }

  /** The decode loop of `StreamChat`: pass on non-empty content, stop at done, EOF or an error. */
  method DecodeLoop(items: seq<Item>) returns (calls: seq<Callback>)
    ensures calls == ItemCalls(items)
  {
    calls := [];
    var i := 0;
    while true
      invariant 0 <= i <= |items|
      invariant calls + ItemCalls(items[i..]) == ItemCalls(items)
      decreases |items| - i
    {
      if i == |items| {
        EmptyTail(items, calls);
        return;   // io.EOF
      }
      var item := items[i];
      if item.Garbled? {
        StepGarbled(items, i, calls);
        calls := calls + [Fail(item.err)];
        return;
      }
      var content := item.line.content.GetOr("");
      var t: seq<Callback> := if content != "" then [Token(content, item.at)] else [];
      StepDecoded(items, i, calls, t, ItemCalls(items));
      calls := calls + t;
      if item.line.done.GetOr(false) {
        return;
      }
      i := i + 1;
    }
  }

  lemma EmptyTail(items: seq<Item>, calls: seq<Callback>)
    requires calls + ItemCalls(items[|items|..]) == ItemCalls(items)
    ensures calls == ItemCalls(items)
  {
    assert items[|items|..] == [];
  }

  lemma StepGarbled(items: seq<Item>, i: nat, calls: seq<Callback>)
    requires i < |items| && items[i].Garbled?
    requires calls + ItemCalls(items[i..]) == ItemCalls(items)
    ensures calls + [Fail(items[i].err)] == ItemCalls(items)
  {
    ItemCallsStep(items, i);
  }

  lemma StepDecoded(items: seq<Item>, i: nat, calls: seq<Callback>, t: seq<Callback>, total: seq<Callback>)
    requires i < |items| && items[i].Decoded?
    requires t == LineTokens(items[i].line, items[i].at)
    requires calls + ItemCalls(items[i..]) == total
    ensures items[i].line.done.GetOr(false) ==> calls + t == total
    ensures !items[i].line.done.GetOr(false) ==> (calls + t) + ItemCalls(items[i + 1..]) == total
  {
    ItemCallsDecodedStep(items, i);
    if items[i].line.done.GetOr(false) {
      assert t + [] == t;
    } else {
      var rest := ItemCalls(items[i + 1..]);
      assert calls + (t + rest) == (calls + t) + rest;
    }
  }

  /** One step of `ItemCalls` at a decoded line. */
  lemma ItemCallsDecodedStep(items: seq<Item>, i: nat)
    requires i < |items| && items[i].Decoded?
    ensures ItemCalls(items[i..]) == LineTokens(items[i].line, items[i].at)
                                     + (if items[i].line.done.GetOr(false) then [] else ItemCalls(items[i + 1..]))
  {
    assert items[i..][0] == items[i] && items[i..][1..] == items[i + 1..];
  }

  /** One step of `ItemCalls` at position `i`. */
  lemma ItemCallsStep(items: seq<Item>, i: nat)
    requires i < |items|
    ensures ItemCalls(items[i..]) ==
      match items[i]
      case Garbled(e) => [Fail(e)]
      case Decoded(line, at) =>
        LineTokens(line, at) + (if line.done.GetOr(false) then [] else ItemCalls(items[i + 1..]))
  {
    assert items[i..][0] == items[i] && items[i..][1..] == items[i + 1..];
  }

  // ---------------------------------------------------------------------
  // Properties of the callbacks

  predicate IsDoneLine(it: Item) { it.Decoded? && it.line.done.GetOr(false) }

  /** The non-empty contents of decoded lines, in order (errors and done lines ignored). */
  function Contents(items: seq<Item>): seq<string>
    decreases |items|
  {
    if items == [] then []
    else
      (if items[0].Decoded? && items[0].line.content.GetOr("") != "" then [items[0].line.content.GetOr("")] else [])
      + Contents(items[1..])
  }

  function TokenTexts(calls: seq<Callback>): seq<string> {
    if calls == [] then []
    else (if calls[0].Token? then [calls[0].content] else []) + TokenTexts(calls[1..])
  }

  lemma {:induction false} TokenTextsAppend(a: seq<Callback>, b: seq<Callback>)
    ensures TokenTexts(a + b) == TokenTexts(a) + TokenTexts(b)
  {
    if a != [] {
      assert (a + b)[1..] == a[1..] + b;
      TokenTextsAppend(a[1..], b);
    } else {
      assert a + b == b;
    }
  }

  /**
   * With no decode error before it, the tokens are the non-empty contents
   * of the lines up to and including the first done line, in order.
   */
  lemma {:induction false} TokensAreContents(items: seq<Item>, n: nat)
    requires n <= |items|
    requires forall k :: 0 <= k < n ==> items[k].Decoded? && !IsDoneLine(items[k])
    requires n == |items| || IsDoneLine(items[n])
    ensures TokenTexts(ItemCalls(items)) == Contents(items[..if n == |items| then n else n + 1])
    decreases n
  {
    if n == 0 {
      if items != [] {
        var c := items[0].line.content.GetOr("");
        var t := if c != "" then [Token(c, items[0].at)] else [];
        assert ItemCalls(items) == t + [];
        assert TokenTexts(t) == (if c != "" then [c] else []);
        assert items[..1] == [items[0]];
        assert Contents(items[..1]) == (if c != "" then [c] else []) + Contents([]);
      }
    } else {
      var rest := items[1..];
      forall k | 0 <= k < n - 1 ensures rest[k].Decoded? && !IsDoneLine(rest[k]) {
        assert rest[k] == items[k + 1];
      }
      TokensAreContents(rest, n - 1);
      var m := if n == |items| then n else n + 1;
      assert items[..m][1..] == rest[..m - 1];
      var c := items[0].line.content.GetOr("");
      TokenTextsAppend(if c != "" then [Token(c, items[0].at)] else [], ItemCalls(rest));
    }
  }

  /** Every token is non-empty. */
  lemma {:induction false} TokensNonEmpty(items: seq<Item>)
    ensures forall k :: 0 <= k < |ItemCalls(items)| && ItemCalls(items)[k].Token? ==> ItemCalls(items)[k].content != ""
    decreases |items|
  {
    if items != [] && items[0].Decoded? {
      TokensNonEmpty(items[1..]);
    }
  }

  /** At most one failure is reported, and nothing follows it. */
  lemma {:induction false} FailureIsLast(items: seq<Item>)
    ensures forall k :: 0 <= k < |ItemCalls(items)| && ItemCalls(items)[k].Fail? ==> k == |ItemCalls(items)| - 1
    decreases |items|
  {
    if items != [] && items[0].Decoded? {
      FailureIsLast(items[1..]);
    }
  }

  /** A body that decodes cleanly up to EOF reports no failure. */
  lemma {:induction false} CleanBodyNoFailure(items: seq<Item>)
    requires forall k :: 0 <= k < |items| ==> items[k].Decoded?
    ensures forall k :: 0 <= k < |ItemCalls(items)| ==> ItemCalls(items)[k].Token?
    decreases |items|
  {
    if items != [] {
      CleanBodyNoFailure(items[1..]);
    }
  }

  /** Lines after the first done line have no effect. */
  lemma DoneStops(items: seq<Item>, n: nat, later: seq<Item>)
    requires n < |items| && IsDoneLine(items[n])
    ensures ItemCalls(items[..n + 1] + later) == ItemCalls(items[..n + 1])
    decreases n
  {
    if n > 0 {
      DoneStops(items[1..], n - 1, later);
      assert (items[..n + 1] + later)[1..] == items[1..][..n] + later;
      assert items[..n + 1][1..] == items[1..][..n];
    } else {
      assert (items[..1] + later)[1..] == later;
    }
  }

  /** A failure to build or send the request gives exactly one failure callback. */
  lemma RequestFailureSingle(reply: Reply)
    requires reply.RequestFailed? || reply.TransportFailed?
    ensures |Calls(reply)| == 1 && Calls(reply)[0].Fail?
  {
  }
}
