/**
 * The HTTP chat proxy of the server (`handleChatProxy`): choose a model
 * when the request names none, add the model's settings when the request
 * has no options, forward it, and copy Ollama's reply back line by line,
 * recording a TTFT at the first line that mentions "content".
 */
module ChatProxy {
  import opened Wrappers
  import opened Text
  import opened Json
  import opened FastOllama
  import opened ModelManagement
  import opened Relay

  /** One line of Ollama's reply as the scanner yields it (without its newline), with its arrival time. */
  datatype ScannedLine = ScannedLine(text: string, at: int)

  /** The request as forwarded: the JSON body, and the settings put under "options" if any were added. */
  datatype Forward = Forward(body: map<string, Json>, addedOptions: Option<map<string, OptionValue>>)

  /** The handler's response; `Aborted` is a panic, after which net/http drops the connection unanswered. */
  datatype ProxyResponse = HttpError(status: nat, message: string) | Streamed(body: string) | Aborted

  /** `requestBody["messages"][0]["content"]`, when the messages are an array whose first item has string content. */
  function FirstContent(body: map<string, Json>): Option<string> {
    if "messages" in body && body["messages"].JArr? && |body["messages"].items| > 0
    then GetString(body["messages"].items[0], "content")
    else None
  }

  /** The body written back: every line followed by a newline. */
  function Relayed(lines: seq<ScannedLine>): string
    decreases |lines|
  {
    if lines == [] then "" else Relayed(lines[..|lines| - 1]) + lines[|lines| - 1].text + "\n"
  }

  function Texts(lines: seq<ScannedLine>): (ts: seq<string>)
    ensures |ts| == |lines| && forall k :: 0 <= k < |lines| ==> ts[k] == lines[k].text
  {
    seq(|lines|, k requires 0 <= k < |lines| => lines[k].text)
  }

  /** The TTFT record: the first line containing `"content"`. */
  function LineRecords(lines: seq<ScannedLine>, start: int): seq<int>
    decreases |lines|
  {
    if lines == [] then []
    else if Contains(lines[0].text, "\"content\"") then [Millis(lines[0].at - start)]
    else LineRecords(lines[1..], start)
  }

  lemma LineRecordsStep(lines: seq<ScannedLine>, i: nat, start: int)
    requires i < |lines|
    ensures LineRecords(lines[i..], start) ==
              if Contains(lines[i].text, "\"content\"") then [Millis(lines[i].at - start)]
              else LineRecords(lines[i + 1..], start)
  {
    assert lines[i..][0] == lines[i] && lines[i..][1..] == lines[i + 1..];
  }

  /**
   * `bufio.Scanner`'s default limit: a line that, with its newline, does not
   * fit in 64 KiB stops the scan (`ErrTooLong`), and the lines before it are
   * all that is read.
   */
  const MaxScanTokenSize: nat := 64 * 1024

  predicate Fits(line: ScannedLine) {
    Utf8Len(line.text) < MaxScanTokenSize
  }

  /** How many lines the scanner yields: up to the first one too long for its buffer. */
  function ScanLength(lines: seq<ScannedLine>): (n: nat)
    ensures n <= |lines|
    ensures forall k :: 0 <= k < n ==> Fits(lines[k])
    ensures n < |lines| ==> !Fits(lines[n])
    decreases |lines|
  {
    if lines == [] || !Fits(lines[0]) then 0
    else
      var m := ScanLength(lines[1..]);
      assert forall k :: 1 <= k < 1 + m ==> lines[k] == lines[1..][k - 1];
      1 + m
  }

  /** The lines the scanner yields. */
  function Scanned(lines: seq<ScannedLine>): seq<ScannedLine> {
    lines[..ScanLength(lines)]
  }

  /** When every line fits, the scanner yields them all. */
  lemma ScannedAllFit(lines: seq<ScannedLine>)
    requires forall k :: 0 <= k < |lines| ==> Fits(lines[k])
    ensures Scanned(lines) == lines
  {
    assert ScanLength(lines) == |lines|;
    assert lines[..|lines|] == lines;
  }

  /** A line too long for the scanner ends the relayed body: nothing from it on is copied. */
  lemma LongLineEndsScan(lines: seq<ScannedLine>, i: nat)
    requires i < |lines| && !Fits(lines[i])
    requires forall k :: 0 <= k < i ==> Fits(lines[k])
    ensures Scanned(lines) == lines[..i]
  {
  }

  /**
   * `handleChatProxy`. `decoded` is the JSON the body holds (None when it is
   * not JSON); Go decodes an object into the map, `null` into a nil map, and
   * refuses anything else. `hasManager` tells whether the model manager
   * exists, `requestCreated` whether `http.NewRequest` accepts OLLAMA_URL
   * with "/api/chat" appended, and `answer` is what Ollama replies to the
   * forwarded request (None for a failed connection), before scanning.
   */
  method HandleChatProxy(verb: string, decoded: Option<Json>, hasManager: bool, requestCreated: bool,
                         metrics: TTFTMetrics, start: int, answer: Forward -> Option<seq<ScannedLine>>)
    returns (resp: ProxyResponse, forwarded: Option<Forward>)
    modifies metrics
    ensures verb != "POST" ==> resp == HttpError(405, "Method not allowed") && forwarded.None?
    ensures verb == "POST" && !(decoded.Some? && (decoded.value.JObj? || decoded.value.JNull?)) ==>
              resp == HttpError(400, "Invalid request body") && forwarded.None?
    ensures verb == "POST" && decoded == Some(JNull) ==> resp == Aborted && forwarded.None?
    ensures verb == "POST" && decoded.Some? && decoded.value.JObj? && !requestCreated ==>
              resp == HttpError(500, "Failed to create request") && forwarded.None?
    ensures forwarded.Some? <==> verb == "POST" && decoded.Some? && decoded.value.JObj? && requestCreated
    ensures forwarded.None? ==> metrics.measurements == old(metrics.measurements)
    ensures forwarded.Some? ==>
              var given := decoded.value.fields;
              var body := forwarded.value.body;
              var named := GetString(JObj(given), "model").GetOr("");
              "model" in body && body["model"].JStr? && body["model"].s != ""
              && (named != "" ==> body == given)
              && (named == "" && FirstContent(given).Some? ==>
                    body == given["model" := JStr(GetFastestModel(Utf8Len(FirstContent(given).value)))])
              && (named == "" && FirstContent(given).None? ==> body == given["model" := JStr("qwen2.5:3b")])
              && (forwarded.value.addedOptions.Some? <==> "options" !in given && hasManager)
              && (forwarded.value.addedOptions.Some? ==>
                    OptimizedSettings(body["model"].s, forwarded.value.addedOptions.value))
    ensures forwarded.Some? && answer(forwarded.value).None? ==>
              resp == HttpError(503, "Failed to connect to Ollama") && metrics.measurements == old(metrics.measurements)
    ensures forwarded.Some? && answer(forwarded.value).Some? ==>
              resp == Streamed(Relayed(Scanned(answer(forwarded.value).value)))
              && metrics.measurements == old(metrics.measurements) + LineRecords(Scanned(answer(forwarded.value).value), start)
  {
    if verb != "POST" {
      return HttpError(405, "Method not allowed"), None;
    }
    if decoded.None? || !(decoded.value.JObj? || decoded.value.JNull?) {
      return HttpError(400, "Invalid request body"), None;
    }
    if decoded.value.JNull? {
      // A nil map reads as empty, so the model is defaulted; storing it panics.
      return Aborted, None;
    }
    var body := decoded.value.fields;
    var model := GetString(JObj(body), "model").GetOr("");
    if model == "" {
      var content := FirstContent(body);
      if content.Some? {
        model := GetFastestModel(Utf8Len(content.value));
      }
      if model == "" {
        model := "qwen2.5:3b";
      }
      body := body["model" := JStr(model)];
    }
    var added: Option<map<string, OptionValue>> := None;
    if "options" !in body && hasManager {
      var settings := GetOptimizedSettings(model);
      added := Some(settings);
    }
    if !requestCreated {
      return HttpError(500, "Failed to create request"), None;
    }
    forwarded := Some(Forward(body, added));
    var reply := answer(forwarded.value);
    if reply.None? {
      return HttpError(503, "Failed to connect to Ollama"), forwarded;
    }
    var out := CopyLines(metrics, reply.value, start);
    resp := Streamed(out);
  }

  /** The scanner loop: copy each line and its newline, and record the TTFT once; a line too long ends it. */
  method CopyLines(metrics: TTFTMetrics, lines: seq<ScannedLine>, start: int) returns (out: string)
    modifies metrics
    ensures out == Relayed(Scanned(lines))
    ensures metrics.measurements == old(metrics.measurements) + LineRecords(Scanned(lines), start)
  {
    out := "";
    var firstTokenSent := false;
    ghost var base := metrics.measurements;
    ghost var read := Scanned(lines);
    var i := 0;
    while i < |lines| && Utf8Len(lines[i].text) < MaxScanTokenSize
      invariant 0 <= i <= |read|
      invariant out == Relayed(read[..i])
      invariant firstTokenSent ==> metrics.measurements == base + LineRecords(read, start)
      invariant !firstTokenSent ==> metrics.measurements == base
                                    && LineRecords(read[i..], start) == LineRecords(read, start)
      decreases |lines| - i
    {
      assert lines[i] == read[i];
      LineRecordsStep(read, i, start);
      if !firstTokenSent && Contains(lines[i].text, "\"content\"") {
        metrics.Record(lines[i].at - start);
        firstTokenSent := true;
      }
      assert read[..i + 1][..i] == read[..i];
      out := out + lines[i].text + "\n";
      i := i + 1;
    }
    assert i == |read|;
    assert read[..i] == read;
  }

  /** Without newlines in the lines themselves, the body splits back into the lines, then an empty tail. */
  lemma {:induction false} RelayedSplits(lines: seq<ScannedLine>, tail: string)
    requires forall k :: 0 <= k < |lines| ==> '\n' !in lines[k].text
    requires '\n' !in tail
    ensures Split(Relayed(lines) + tail, '\n') == Texts(lines) + [tail]
    decreases |lines|
  {
    if lines == [] {
      assert Relayed(lines) + tail == tail;
      SplitNoChar(tail, '\n');
    } else {
      var init := lines[..|lines| - 1];
      var last := lines[|lines| - 1].text;
      RelayedSplits(init, last);
      assert Relayed(lines) + tail == (Relayed(init) + last) + ['\n'] + tail;
      SplitAppend(Relayed(init) + last, '\n', tail);
      SplitNoChar(tail, '\n');
      assert Texts(lines) == Texts(init) + [last];
    }
  }

  /** The body is the lines, each terminated by one newline. */
  lemma RelayedLines(lines: seq<ScannedLine>)
    requires forall k :: 0 <= k < |lines| ==> '\n' !in lines[k].text
    ensures Split(Relayed(lines), '\n') == Texts(lines) + [""]
  {
    RelayedSplits(lines, "");
    assert Relayed(lines) + "" == Relayed(lines);
  }

  /** At most one TTFT, and one exactly when some line mentions "content". */
  lemma {:induction false} LineRecordsAtMostOne(lines: seq<ScannedLine>, start: int)
    ensures |LineRecords(lines, start)| <= 1
    ensures LineRecords(lines, start) != [] <==> exists k :: 0 <= k < |lines| && Contains(lines[k].text, "\"content\"")
    decreases |lines|
  {
    if lines != [] {
      LineRecordsAtMostOne(lines[1..], start);
      if !Contains(lines[0].text, "\"content\"") {
        forall k | 0 <= k < |lines| && Contains(lines[k].text, "\"content\"")
          ensures 0 <= k - 1 < |lines[1..]| && Contains(lines[1..][k - 1].text, "\"content\"")
        {
          assert k != 0;
        }
        forall k | 0 <= k < |lines[1..]| && Contains(lines[1..][k].text, "\"content\"")
          ensures Contains(lines[k + 1].text, "\"content\"")
        {
        }
      }
    }
  }
}
