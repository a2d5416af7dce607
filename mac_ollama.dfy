/**
 * The macOS app's `OllamaService`: the model list it loads, the status
 * check, the chat request body, and `StreamChatDelegate`, which buffers
 * the NDJSON reply and rescans it on every chunk. The bytes are taken as
 * text, and `decode` stands for `JSONSerialization` on one line.
 */
module MacOllama {
  import opened Wrappers
  import opened Text
  import opened Json

  const DefaultModel: string := "llama3.1:8b"

  /** `json["message"]["content"] as? String`, as a list of at most one token. */
  function LineToken(j: Option<Json>): (t: seq<string>)
    ensures |t| <= 1
    ensures |t| == 1 <==> j.Some? && GetObject(j.value, "message").Some?
                          && GetString(GetObject(j.value, "message").value, "content").Some?
  {
    if j.Some? && GetObject(j.value, "message").Some? && GetString(GetObject(j.value, "message").value, "content").Some?
    then [GetString(GetObject(j.value, "message").value, "content").value]
    else []
  }

  /** `json["done"] as? Bool` is true. */
  predicate LineDone(j: Option<Json>) {
    j.Some? && GetBool(j.value, "done") == Some(true)
  }

  /**
   * The line loop: for each non-empty line in order, its token if it has
   * one; the first line marked done ends the scan.
   */
  function Scan(lines: seq<string>, decode: string -> Option<Json>): (r: (seq<string>, bool))
    decreases |lines|
  {
    if lines == [] then ([], false)
    else if lines[0] == "" then Scan(lines[1..], decode)
    else
      var j := decode(lines[0]);
      if LineDone(j) then (LineToken(j), true)
      else
        var rest := Scan(lines[1..], decode);
        (LineToken(j) + rest.0, rest.1)
  }

  lemma ScanStep(lines: seq<string>, i: nat, decode: string -> Option<Json>)
    requires i < |lines|
    ensures Scan(lines[i..], decode) ==
              if lines[i] == "" then Scan(lines[i + 1..], decode)
              else if LineDone(decode(lines[i])) then (LineToken(decode(lines[i])), true)
              else (LineToken(decode(lines[i])) + Scan(lines[i + 1..], decode).0, Scan(lines[i + 1..], decode).1)
  {
    assert lines[i..][0] == lines[i] && lines[i..][1..] == lines[i + 1..];
  }

  /** The scan's tokens after a non-empty line: that line's token, then those of the lines after it, if it is not done. */
  lemma ScanLineStep(lines: seq<string>, i: nat, decode: string -> Option<Json>, before: seq<string>, whole: seq<string>)
    requires i < |lines| && lines[i] != ""
    requires before + Scan(lines[i..], decode).0 == whole
    ensures var j := decode(lines[i]);
            (LineDone(j) ==> before + LineToken(j) == whole && Scan(lines[i..], decode).1)
            && (!LineDone(j) ==> (before + LineToken(j)) + Scan(lines[i + 1..], decode).0 == whole
                                 && Scan(lines[i + 1..], decode).1 == Scan(lines[i..], decode).1)
  {
    ScanStep(lines, i, decode);
    if !LineDone(decode(lines[i])) {
      AppendAssoc(before, LineToken(decode(lines[i])), Scan(lines[i + 1..], decode).0);
    }
  }

  /** Scanning two runs of lines: the second is scanned only when the first has no done line. */
  lemma {:induction false} ScanAppend(a: seq<string>, b: seq<string>, decode: string -> Option<Json>)
    ensures Scan(a + b, decode) ==
              if Scan(a, decode).1 then Scan(a, decode)
              else (Scan(a, decode).0 + Scan(b, decode).0, Scan(b, decode).1)
    decreases |a|
  {
    if a == [] {
      assert a + b == b;
      assert Scan(a, decode).0 + Scan(b, decode).0 == Scan(b, decode).0;
    } else {
      assert (a + b)[0] == a[0] && (a + b)[1..] == a[1..] + b;
      ScanAppend(a[1..], b, decode);
      if a[0] != "" && !LineDone(decode(a[0])) && !Scan(a[1..], decode).1 {
        var t := LineToken(decode(a[0]));
        assert t + (Scan(a[1..], decode).0 + Scan(b, decode).0) == (t + Scan(a[1..], decode).0) + Scan(b, decode).0;
      }
    }
  }

  /** Every token comes from a non-empty line's message content, and there are no more tokens than lines. */
  lemma {:induction false} ScanTokensFromLines(lines: seq<string>, decode: string -> Option<Json>)
    ensures |Scan(lines, decode).0| <= |lines|
    ensures forall t :: t in Scan(lines, decode).0 ==>
              exists k :: 0 <= k < |lines| && lines[k] != "" && LineToken(decode(lines[k])) == [t]
    decreases |lines|
  {
    if lines != [] {
      ScanTokensFromLines(lines[1..], decode);
      forall t | t in Scan(lines, decode).0
        ensures exists k :: 0 <= k < |lines| && lines[k] != "" && LineToken(decode(lines[k])) == [t]
      {
        if lines[0] != "" && t in LineToken(decode(lines[0])) {
          assert LineToken(decode(lines[0])) == [t];
        } else {
          var k :| 0 <= k < |lines[1..]| && lines[1..][k] != "" && LineToken(decode(lines[1..][k])) == [t];
          assert lines[k + 1] == lines[1..][k];
        }
      }
    }
  }

  /**
   * A '\n' that is a Character of its own. Swift's `String` compares
   * Characters (grapheme clusters), and "\r\n" is one Character, which is
   * not equal to "\n".
   */
  predicate LoneNewlineAt(s: string, i: nat)
    requires i < |s|
  {
    s[i] == '\n' && (i == 0 || s[i - 1] != '\r')
  }

  /** No Character of the text is "\n". */
  predicate NoLineBreak(s: string) {
    forall k :: 0 <= k < |s| ==> !LoneNewlineAt(s, k)
  }

  /** No '\r' comes right before a '\n'. */
  predicate NoCrLf(s: string) {
    forall k :: 0 < k < |s| && s[k] == '\n' ==> s[k - 1] != '\r'
  }

  /** `lastIndex(of: "\n")` among the first `n` characters, as an offset. */
  function LastLineBreak(s: string, n: nat): (r: Option<nat>)
    requires n <= |s|
    ensures r.Some? ==> r.value < n && LoneNewlineAt(s, r.value)
                        && forall k :: r.value < k < n ==> !LoneNewlineAt(s, k)
    ensures r.None? ==> forall k :: 0 <= k < n ==> !LoneNewlineAt(s, k)
    decreases n
  {
    if n == 0 then None
    else if LoneNewlineAt(s, n - 1) then Some(n - 1)
    else LastLineBreak(s, n - 1)
  }

  /** Without CR LF pairs, every '\n' is a Character, so the search finds the last '\n'. */
  lemma LastLineBreakNoCrLf(s: string)
    requires NoCrLf(s)
    ensures LastLineBreak(s, |s|) == LastIndexOfChar(s, '\n')
  {
    match LastIndexOfChar(s, '\n')
    case None =>
    case Some(i) =>
      assert LoneNewlineAt(s, i);
  }

  /** The text after the last "\n" Character, or all of it when there is none. */
  function AfterLastNewline(s: string): (r: string)
    ensures NoLineBreak(r)
    ensures LastLineBreak(s, |s|).None? ==> r == s
  {
    match LastLineBreak(s, |s|)
    case None => s
    case Some(i) =>
      var r := s[i + 1..];
      assert forall k :: 0 <= k < |r| ==> r[k] == s[i + 1 + k];
      assert forall k :: 0 <= k < |r| ==> LoneNewlineAt(r, k) ==> LoneNewlineAt(s, i + 1 + k);
      r
  }

  /** Without CR LF pairs, the text after the last newline is the last line. */
  lemma AfterLastNewlineIsLastLine(s: string)
    requires NoCrLf(s)
    ensures var p := Split(s, '\n'); AfterLastNewline(s) == p[|p| - 1]
  {
    var p := Split(s, '\n');
    SplitLast(s, '\n');
    LastLineBreakNoCrLf(s);
    if |p| > 1 {
      var j := Join(p[..|p| - 1], '\n');
      var last := p[|p| - 1];
      assert s[|j|] == '\n' && s[|j| + 1..] == last;
      LastIndexOfCharIs(s, '\n', |j|);
    }
  }

  /**
   * One `didReceive` of the delegate as written: the whole buffer, the
   * incomplete last line included, is scanned; unless a done line
   * returned early, the buffer keeps what follows its last newline.
   */
  function ReceiveAsWritten(buffer: string, chunk: string, decode: string -> Option<Json>)
    : (r: (seq<string>, bool, string))
  {
    var s := buffer + chunk;
    var (tokens, done) := Scan(Split(s, '\n'), decode);
    (tokens, done, if done then s else AfterLastNewline(s))
  }

  /** Unless a done line was hit, the buffer is the last line of buffer plus chunk, so it holds no newline. */
  lemma BufferKeepsLastLine(buffer: string, chunk: string, decode: string -> Option<Json>)
    ensures var r := ReceiveAsWritten(buffer, chunk, decode);
            !r.1 ==> NoLineBreak(r.2)
    ensures var r := ReceiveAsWritten(buffer, chunk, decode);
            var p := Split(buffer + chunk, '\n');
            !r.1 && NoCrLf(buffer + chunk) ==> r.2 == p[|p| - 1] && '\n' !in r.2
    ensures NoLineBreak(buffer + chunk) ==> ReceiveAsWritten(buffer, chunk, decode).2 == buffer + chunk
  {
    if NoCrLf(buffer + chunk) {
      AfterLastNewlineIsLastLine(buffer + chunk);
    }
    if NoLineBreak(buffer + chunk) {
      assert LastLineBreak(buffer + chunk, |buffer + chunk|).None?;
    }
  }

  /**
   * A line ended by CR LF holds no "\n" Character, so the buffer keeps
   * the complete line, and the next chunk scans it again.
   */
  lemma CrLfLineKept(line: string, decode: string -> Option<Json>)
    requires '\n' !in line
    ensures ReceiveAsWritten("", line + "\r\n", decode).2 == line + "\r\n"
  {
    var s := line + "\r\n";
    assert s[|line|] == '\r' && s[|line| + 1] == '\n';
    forall k | 0 <= k < |s|
      ensures !LoneNewlineAt(s, k)
    {
      if k < |line| {
        assert s[k] == line[k];
      }
    }
    assert "" + s == s;
    BufferKeepsLastLine("", s, decode);
  }

  /**
   * The delegate as it should be: only complete lines are scanned, and
   * the incomplete last one is kept.
   */
  function ReceiveCompleteLines(buffer: string, chunk: string, decode: string -> Option<Json>)
    : (r: (seq<string>, bool, string))
    ensures !r.1 ==> '\n' !in r.2
  {
    var s := buffer + chunk;
    var p := Split(s, '\n');
    var (tokens, done) := Scan(p[..|p| - 1], decode);
    (tokens, done, if done then s else p[|p| - 1])
  }

  /** The chunks one after another, until a done line. */
  function RunAsWritten(buffer: string, chunks: seq<string>, decode: string -> Option<Json>): (seq<string>, bool)
    decreases |chunks|
  {
    if chunks == [] then ([], false)
    else
      var (t, d, b) := ReceiveAsWritten(buffer, chunks[0], decode);
      if d then (t, true) else var r := RunAsWritten(b, chunks[1..], decode); (t + r.0, r.1)
  }

  function RunCompleteLines(buffer: string, chunks: seq<string>, decode: string -> Option<Json>): (seq<string>, bool)
    decreases |chunks|
  {
    if chunks == [] then ([], false)
    else
      var (t, d, b) := ReceiveCompleteLines(buffer, chunks[0], decode);
      if d then (t, true) else var r := RunCompleteLines(b, chunks[1..], decode); (t + r.0, r.1)
  }

  function Concat(chunks: seq<string>): string
    decreases |chunks|
  {
    if chunks == [] then "" else chunks[0] + Concat(chunks[1..])
  }

  /**
   * As written, a complete line whose newline arrives in the next chunk is
   * scanned twice, so its token is delivered twice; with only complete
   * lines scanned it is delivered once.
   */
  lemma LateNewlineRepeats(line: string, t: string, decode: string -> Option<Json>)
    requires line != "" && '\n' !in line
    requires LineToken(decode(line)) == [t] && !LineDone(decode(line))
    ensures RunAsWritten("", [line, "\n"], decode) == ([t, t], false)
    ensures RunCompleteLines("", [line, "\n"], decode) == ([t], false)
  {
    LateNewlineSteps(line, t, decode);
    var chunks := [line, "\n"];
    assert chunks[0] == line && chunks[1..] == ["\n"] && ["\n"][1..] == [];
    assert [t] + ([t] + []) == [t, t];
    assert [] + ([t] + []) == [t];
  }

  lemma LateNewlineSteps(line: string, t: string, decode: string -> Option<Json>)
    requires line != "" && '\n' !in line
    requires LineToken(decode(line)) == [t] && !LineDone(decode(line))
    ensures ReceiveAsWritten("", line, decode) == ([t], false, line)
    ensures ReceiveAsWritten(line, "\n", decode).0 == [t] && !ReceiveAsWritten(line, "\n", decode).1
    ensures ReceiveCompleteLines("", line, decode) == ([], false, line)
    ensures ReceiveCompleteLines(line, "\n", decode).0 == [t] && !ReceiveCompleteLines(line, "\n", decode).1
  {
    assert "" + line == line;
    SplitNoChar(line, '\n');
    SplitAppend(line, '\n', "");
    assert line + "\n" == line + ['\n'] + "";
    assert Split(line + "\n", '\n') == [line, ""];
    var one := [line];
    var two := [line, ""];
    assert one[1..] == [] && one[..0] == [];
    assert two[1..] == [""] && [""][1..] == [] && two[..1] == one;
    assert Scan(one, decode) == ([t] + [], false);
    assert Scan(two, decode) == ([t] + [], false);
    assert [t] + [] == [t];
  }

  /**
   * Scanning complete lines does not depend on how the reply is cut into
   * chunks: the tokens and the done flag are those of the complete lines
   * of the whole reply.
   */
  lemma {:induction false} CompleteLinesChunkingInvariant(buffer: string, chunks: seq<string>, decode: string -> Option<Json>)
    requires '\n' !in buffer
    ensures var p := Split(buffer + Concat(chunks), '\n');
            RunCompleteLines(buffer, chunks, decode) == Scan(p[..|p| - 1], decode)
    decreases |chunks|
  {
    if chunks == [] {
      assert buffer + Concat(chunks) == buffer;
      SplitNoChar(buffer, '\n');
      assert Split(buffer, '\n')[..0] == [];
    } else {
      var q := Split(buffer + chunks[0], '\n');
      var lines, tail := q[..|q| - 1], q[|q| - 1];
      var p' := Split(tail + Concat(chunks[1..]), '\n');
      var later := p'[..|p'| - 1];
      CompleteLinesSplit(buffer, chunks);
      RunCompleteLinesStep(buffer, chunks, decode);
      ScanAppend(lines, later, decode);
      if !Scan(lines, decode).1 {
        assert '\n' !in tail;
        CompleteLinesChunkingInvariant(tail, chunks[1..], decode);
        assert RunCompleteLines(tail, chunks[1..], decode) == Scan(later, decode);
      }
    }
  }

  /** The complete lines of the whole reply: those of the first chunk's text, then those of the rest after its last line. */
  lemma CompleteLinesSplit(buffer: string, chunks: seq<string>)
    requires chunks != []
    ensures var q := Split(buffer + chunks[0], '\n');
            var p := Split(buffer + Concat(chunks), '\n');
            var p' := Split(q[|q| - 1] + Concat(chunks[1..]), '\n');
            p[..|p| - 1] == q[..|q| - 1] + p'[..|p'| - 1]
  {
    var s := buffer + chunks[0];
    var rest := Concat(chunks[1..]);
    assert buffer + Concat(chunks) == s + rest;
    SplitConcat(s, rest, '\n');
    var q := Split(s, '\n');
    DropLastAppend(q[..|q| - 1], Split(q[|q| - 1] + rest, '\n'));
  }

  lemma DropLastAppend<T>(a: seq<T>, b: seq<T>)
    requires b != []
    ensures (a + b)[..|a + b| - 1] == a + b[..|b| - 1]
  {
  }

  /** One chunk of `RunCompleteLines`. */
  lemma RunCompleteLinesStep(buffer: string, chunks: seq<string>, decode: string -> Option<Json>)
    requires chunks != []
    ensures var q := Split(buffer + chunks[0], '\n');
            var sc := Scan(q[..|q| - 1], decode);
            RunCompleteLines(buffer, chunks, decode) ==
              if sc.1 then sc
              else (sc.0 + RunCompleteLines(q[|q| - 1], chunks[1..], decode).0, RunCompleteLines(q[|q| - 1], chunks[1..], decode).1)
  {
  }

  /** `StreamChatDelegate`: the callbacks are recorded in the order they are made. */
  class StreamChatDelegate {
    var receivedData: string
    /** The arguments of every `tokenHandler` call. */
    var tokens: seq<string>
    /** The arguments of every `completionHandler` call. */
    var completions: seq<bool>
    const decode: string -> Option<Json>

    constructor (decode: string -> Option<Json>)
      ensures receivedData == "" && tokens == [] && completions == [] && this.decode == decode
    {
      receivedData := "";
      tokens := [];
      completions := [];
      this.decode := decode;
    }

    /** `urlSession(_:dataTask:didReceive:)`, as written. */
    method DidReceive(chunk: string)
      modifies this
      ensures var (t, d, b) := ReceiveAsWritten(old(receivedData), chunk, decode);
              tokens == old(tokens) + t && completions == old(completions) + (if d then [true] else []) && receivedData == b
    {
      receivedData := receivedData + chunk;
      var text := receivedData;
      var done := ScanLines(Split(text, '\n'));
      if done {
        return;
      }
      match LastLineBreak(text, |text|) {
        case Some(k) =>
          receivedData := text[k + 1..];
        case None =>
      }
    }

    /** The delegate with the fix: complete lines only. */
    method DidReceiveCompleteLines(chunk: string)
      modifies this
      ensures var (t, d, b) := ReceiveCompleteLines(old(receivedData), chunk, decode);
              tokens == old(tokens) + t && completions == old(completions) + (if d then [true] else []) && receivedData == b
    {
      receivedData := receivedData + chunk;
      var text := receivedData;
      var parts := Split(text, '\n');
      var done := ScanLines(parts[..|parts| - 1]);
      if done {
        return;
      }
      receivedData := parts[|parts| - 1];
    }

    /** The `for line in lines where !line.isEmpty` loop, with its early return. */
    method ScanLines(lines: seq<string>) returns (done: bool)
      modifies this
      ensures tokens == old(tokens) + Scan(lines, decode).0 && done == Scan(lines, decode).1
      ensures completions == old(completions) + (if done then [true] else [])
      ensures receivedData == old(receivedData)
    {
      ghost var base := tokens;
      ghost var total := Scan(lines, decode);
      var i := 0;
      while i < |lines|
        invariant 0 <= i <= |lines|
        invariant tokens + Scan(lines[i..], decode).0 == base + total.0
        invariant Scan(lines[i..], decode).1 == total.1
        invariant completions == old(completions) && receivedData == old(receivedData)
      {
        ScanStep(lines, i, decode);
        if lines[i] != "" {
          var json := decode(lines[i]);
          ScanLineStep(lines, i, decode, tokens, base + total.0);
          tokens := tokens + LineToken(json);
          if LineDone(json) {
            completions := completions + [true];
            return true;
          }
        }
        i := i + 1;
      }
      assert lines[i..] == [];
      return false;
    }

    /** `didCompleteWithError`: success exactly when there is no error, whatever came before. */
    method DidComplete(failed: bool)
      modifies this
      ensures completions == old(completions) + [!failed]
      ensures tokens == old(tokens) && receivedData == old(receivedData)
    {
      completions := completions + [!failed];
    }
  }

  /** The name one model contributes: its string "name", if it has one. */
  function NameOf(m: Json): (r: seq<string>)
    ensures |r| <= 1
  {
    if GetString(m, "name").Some? then [GetString(m, "name").value] else []
  }

  /** `models.compactMap { $0["name"] as? String }`. */
  function Names(models: seq<Json>): (r: seq<string>)
    ensures |r| <= |models|
    decreases |models|
  {
    if models == [] then [] else NameOf(models[0]) + Names(models[1..])
  }

  /** The names keep the models' order, and every model with a string name contributes it. */
  lemma {:induction false} NamesAppend(a: seq<Json>, b: seq<Json>)
    ensures Names(a + b) == Names(a) + Names(b)
    decreases |a|
  {
    if a == [] {
      assert a + b == b;
    } else {
      assert (a + b)[0] == a[0] && (a + b)[1..] == a[1..] + b;
      NamesAppend(a[1..], b);
      assert NameOf(a[0]) + (Names(a[1..]) + Names(b)) == (NameOf(a[0]) + Names(a[1..])) + Names(b);
    }
  }

  lemma {:induction false} NamesAreNames(models: seq<Json>)
    ensures forall n :: n in Names(models) <==> exists k :: 0 <= k < |models| && GetString(models[k], "name") == Some(n)
    decreases |models|
  {
    if models != [] {
      NamesAreNames(models[1..]);
      forall n ensures n in Names(models) <==> exists k :: 0 <= k < |models| && GetString(models[k], "name") == Some(n) {
        if exists k :: 0 <= k < |models| && GetString(models[k], "name") == Some(n) {
          var k :| 0 <= k < |models| && GetString(models[k], "name") == Some(n);
          if k > 0 {
            assert models[1..][k - 1] == models[k];
          }
        }
        if n in Names(models[1..]) {
          var k :| 0 <= k < |models[1..]| && GetString(models[1..][k], "name") == Some(n);
          assert models[k + 1] == models[1..][k];
        }
      }
    }
  }

  /** The chat request body of `streamChat`. */
  function ChatBody(currentModel: Option<string>, prompt: string): (j: Json)
    ensures j.JObj? && j.fields.Keys == {"model", "messages", "stream"}
    ensures GetString(j, "model") == Some(currentModel.GetOr(DefaultModel))
    ensures GetBool(j, "stream") == Some(true)
    ensures j.fields["messages"] == JArr([StrObject(map["role" := "user", "content" := prompt])])
  {
    JObj(map["model" := JStr(currentModel.GetOr(DefaultModel)),
             "messages" := JArr([StrObject(map["role" := "user", "content" := prompt])]),
             "stream" := JBool(true)])
  }

  class OllamaService {
    var isRunning: bool
    var availableModels: seq<string>
    var currentModel: Option<string>

    constructor ()
      ensures !isRunning && availableModels == [] && currentModel.None?
    {
      isRunning := false;
      availableModels := [];
      currentModel := None;
    }

    /**
     * `loadModels`' completion with the decoded reply (None when there is
     * no data or it is not JSON): nothing changes unless it is an object
     * whose "models" is an array of objects.
     */
    method LoadModels(reply: Option<Json>)
      modifies this
      ensures var models := if reply.Some? then GetObjectArray(reply.value, "models") else None;
              && (models.None? ==> availableModels == old(availableModels) && currentModel == old(currentModel))
              && (models.Some? ==> availableModels == Names(models.value))
              && (models.Some? && old(currentModel).None? ==>
                    currentModel == Some(if availableModels != [] then availableModels[0] else DefaultModel))
              && (old(currentModel).Some? ==> currentModel == old(currentModel))
      ensures isRunning == old(isRunning)
    {
      if reply.None? {
        return;
      }
      var models := GetObjectArray(reply.value, "models");
      if models.None? {
        return;
      }
      availableModels := Names(models.value);
      if currentModel.None? {
        currentModel := Some(if availableModels != [] then availableModels[0] else DefaultModel);
      }
    }

    /**
     * `checkStatus`' completion: running exactly when there was no error
     * and the status was 200, and then the models are loaded from `tags`.
     */
    method CheckStatus(failed: bool, status: Option<nat>, tags: Option<Json>)
      modifies this
      ensures isRunning == (!failed && status == Some(200))
      ensures !isRunning ==> availableModels == old(availableModels) && currentModel == old(currentModel)
      ensures isRunning && tags.Some? && GetObjectArray(tags.value, "models").Some? ==>
                availableModels == Names(GetObjectArray(tags.value, "models").value)
    {
      isRunning := !failed && status == Some(200);
      if isRunning {
        LoadModels(tags);
      }
    }

    /** The body `streamChat` posts. */
    function StreamChatBody(prompt: string): (j: Json)
      reads this
      ensures GetString(j, "model") == Some(if currentModel.Some? then currentModel.value else DefaultModel)
    {
      ChatBody(currentModel, prompt)
    }
  }
}
