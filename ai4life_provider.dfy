/**
 * The remote retrieval-augmented provider: it sends the last user question to
 * the `/rag/chat-stream` endpoint and decodes the server-sent-event body,
 * either live (with a carry-over buffer for lines split across reads) or
 * collected into one response (each read split on its own).
 *
 * An SSE line `data: <json>` carries a JSON object whose `text` member is a
 * delta of the answer; the delta may hold inline citation objects, which
 * `CitationParsing.Separate` removes and returns. `data: [DONE]` ends the
 * answer.
 */
module Ai4lifeProvider {

  import opened ChatTypes
  import opened JsStrings
  import opened CitationParsing

  const DataPrefix: string := "data: "
  const DoneLine: string := "data: [DONE]"
  const ApiErrorPrefix: string := "AI4Life API error: "

  /** The JSON body `{question}` posted to the endpoint. */
  datatype RagRequest = RagRequest(question: string)

  type RagServer = RagRequest -> HttpResponse

  // ---------------------------------------------------------------------------
  // Choosing the question
  // ---------------------------------------------------------------------------

  /** `messages.filter(m => m.role === "user")`. */
  function UserMessages(messages: seq<AiMessage>): (users: seq<AiMessage>)
    ensures forall k :: 0 <= k < |users| ==> users[k].role == User
    ensures forall k :: 0 <= k < |users| ==> users[k] in messages
  {
    if messages == [] then []
    else if messages[0].role == User then [messages[0]] + UserMessages(messages[1..])
    else UserMessages(messages[1..])
  }

  /** `.pop()` of the user messages: the question the provider asks. */
  function LastUserMessage(messages: seq<AiMessage>): Option<AiMessage> {
    var users := UserMessages(messages);
    if users == [] then None else Some(users[|users| - 1])
  }

  lemma {:induction false} UserMessagesOfAppend(a: seq<AiMessage>, b: seq<AiMessage>)
    ensures UserMessages(a + b) == UserMessages(a) + UserMessages(b)
    decreases |a|
  {
    if a == [] {
      assert a + b == b;
    } else {
      assert (a + b)[0] == a[0] && (a + b)[1..] == a[1..] + b;
      UserMessagesOfAppend(a[1..], b);
    }
  }

  /**
   * The last position whose role is user: every later message has another
   * role, and there is none exactly when no message is a user message.
   */
  function LastUserIndex(messages: seq<AiMessage>): (r: Option<nat>)
    ensures r.Some? ==> r.value < |messages| && messages[r.value].role == User
    ensures r.Some? ==> forall j :: r.value < j < |messages| ==> messages[j].role != User
    ensures r.None? <==> forall j :: 0 <= j < |messages| ==> messages[j].role != User
  {
    if messages == [] then None
    else if messages[|messages| - 1].role == User then Some(|messages| - 1)
    else LastUserIndex(messages[..|messages| - 1])
  }

  /** Filtering and popping picks the message at the last user position. */
  lemma {:induction false} LastUserMessageIsLast(messages: seq<AiMessage>)
    ensures LastUserMessage(messages)
            == match LastUserIndex(messages) case None => None case Some(i) => Some(messages[i])
    decreases |messages|
  {
    if messages != [] {
      var n := |messages| - 1;
      var init := messages[..n];
      assert messages == init + [messages[n]];
      UserMessagesOfAppend(init, [messages[n]]);
      assert [messages[n]][1..] == [];
      if messages[n].role != User {
        LastUserMessageIsLast(init);
      }
    }
  }

  // ---------------------------------------------------------------------------
  // One event payload
  // ---------------------------------------------------------------------------

  /**
   * The answer delta of one payload: `JSON.parse(payload).text` when it is a
   * non-empty string. A parse failure, a value without `text`, and a falsy
   * `text` give nothing; so does a truthy non-string `text`, on which the
   * citation scan throws inside the same `try`.
   */
  function EventText(parse: Parser, payload: string): (r: Option<string>)
    ensures r.Some? ==> r.value != ""
    ensures r.Some? <==> (parse(payload).Some? && Member(parse(payload).value, "text").Some?
                          && Member(parse(payload).value, "text").value.JStr?
                          && Member(parse(payload).value, "text").value.s != "")
    ensures r.Some? ==> r.value == Member(parse(payload).value, "text").value.s
  {
    match parse(payload)
    case Some(data) =>
      (match Member(data, "text")
       case Some(JStr(text)) => if text != "" then Some(text) else None
       case _ => None)
    case None => None
  }

  /** The citation chunks yielded after a delta's text, one per citation. */
  function CitationChunks(citations: seq<Citation>): (chunks: seq<AiStreamChunk>)
    ensures |chunks| == |citations|
    ensures forall k :: 0 <= k < |chunks| ==> chunks[k] == AiStreamChunk("", Some(citations[k]))
  {
    if citations == [] then [] else [AiStreamChunk("", Some(citations[0]))] + CitationChunks(citations[1..])
  }

  /** The chunks one delta yields: its cleaned text when non-empty, then its citations. */
  function DeltaChunks(parse: Parser, delta: string): seq<AiStreamChunk> {
    var separated := Separate(parse, delta);
    (if separated.text != "" then [AiStreamChunk(separated.text, None)] else [])
    + CitationChunks(separated.citations)
  }

  // ---------------------------------------------------------------------------
  // Live decoding
  // ---------------------------------------------------------------------------

  /** What one complete line does to the live stream. */
  datatype LineStep = Skip | Stop | Emit(chunks: seq<AiStreamChunk>)

  /**
   * One line of the live stream, trimmed first: blank lines and lines that
   * do not start with `data: ` are skipped, `data: [DONE]` ends the stream,
   * and a payload with a text delta yields that delta's chunks.
   */
  function SseStep(parse: Parser, line: string): LineStep {
    var trimmed := Trim(line);
    if trimmed == "" then Skip
    else if trimmed == DoneLine then Stop
    else if StartsWith(trimmed, DataPrefix) then
      match EventText(parse, trimmed[|DataPrefix|..])
      case Some(delta) => Emit(DeltaChunks(parse, delta))
      case None => Skip
    else Skip
  }

  /** The chunks yielded for a run of complete lines, and whether `[DONE]` was among them. */
  datatype Decoded = Decoded(chunks: seq<AiStreamChunk>, stopped: bool)

  function SseLines(parse: Parser, lines: seq<string>): Decoded {
    if lines == [] then Decoded([], false)
    else match SseStep(parse, lines[0])
      case Skip => SseLines(parse, lines[1..])
      case Stop => Decoded([], true)
      case Emit(cs) => var rest := SseLines(parse, lines[1..]); Decoded(cs + rest.chunks, rest.stopped)
  }

  /**
   * The reference decoding of a whole body: the complete lines of the
   * concatenated text, in order, up to `[DONE]`; the unterminated tail is
   * dropped.
   */
  function SseOutput(parse: Parser, text: string): Decoded {
    SseLines(parse, CompleteLines(text))
  }

  /** Decoding two runs of lines is decoding the first, then the second unless it stopped. */
  lemma {:induction false} SseLinesAppend(parse: Parser, a: seq<string>, b: seq<string>)
    ensures SseLines(parse, a + b)
            == if SseLines(parse, a).stopped then SseLines(parse, a)
               else Decoded(SseLines(parse, a).chunks + SseLines(parse, b).chunks, SseLines(parse, b).stopped)
    decreases |a|
  {
    if a == [] {
      AppendEmpty(b);
    } else {
      DropFirstOfAppend(a, b);
      SseLinesAppend(parse, a[1..], b);
      match SseStep(parse, a[0])
      case Skip =>
      case Stop =>
      case Emit(cs) =>
        AppendAssociative(cs, SseLines(parse, a[1..]).chunks, SseLines(parse, b).chunks);
    }
  }

  /** Nothing after `[DONE]` is decoded. */
  lemma NothingAfterDone(parse: Parser, a: seq<string>, b: seq<string>)
    requires SseLines(parse, a).stopped
    ensures SseLines(parse, a + b) == SseLines(parse, a)
  {
    SseLinesAppend(parse, a, b);
  }

  /** A text without a newline decodes to nothing: an unterminated line is never processed. */
  lemma PartialLineIgnored(parse: Parser, text: string)
    requires Newline !in text
    ensures SseOutput(parse, text) == Decoded([], false)
  {
    SplitNoNewline(text);
  }

  /** A line whose payload does not parse is skipped. */
  lemma MalformedLineSkipped(parse: Parser, payload: string, rest: seq<string>)
    requires payload != [] && Newline !in payload && payload != "[DONE]"
    requires !IsTrimmable(payload[0]) && !IsTrimmable(payload[|payload| - 1])
    requires parse(payload).None?
    ensures SseLines(parse, [DataPrefix + payload] + rest) == SseLines(parse, rest)
  {
    var line := DataPrefix + payload;
    DropFirstOfAppend(DataPrefix, payload);
    AppendParts(DataPrefix, payload);
    assert line[0] == 'd';
    assert Trim(line) == line;
    DoneLineParts();
    ConsParts(line, rest);
  }

  /** `[DONE]` is the payload of the line that ends the stream. */
  lemma DoneLineParts()
    ensures DoneLine == DataPrefix + "[DONE]"
    ensures (DataPrefix + "[DONE]")[|DataPrefix|..] == "[DONE]"
  {
  }

  /** How the complete lines and the carried tail grow with one more read. */
  lemma ReadStep(parts: seq<string>, k: nat)
    requires k < |parts|
    ensures CompleteLines(Concat(parts[..k + 1]))
            == CompleteLines(Concat(parts[..k])) + CompleteLines(Rest(Concat(parts[..k])) + parts[k])
    ensures Rest(Concat(parts[..k + 1])) == Rest(Rest(Concat(parts[..k])) + parts[k])
  {
    TakeStep(parts, k);
    CompleteLinesAppend(Concat(parts[..k]), parts[k]);
  }

  /** The decoding after one more read extends the decoding before it by that read's lines. */
  lemma ReadDecoded(parse: Parser, parts: seq<string>, k: nat, chunks: seq<AiStreamChunk>,
                    emitted: seq<AiStreamChunk>, stopped: bool)
    requires k < |parts|
    requires SseOutput(parse, Concat(parts[..k])) == Decoded(chunks, false)
    requires SseLines(parse, CompleteLines(Rest(Concat(parts[..k])) + parts[k])) == Decoded(emitted, stopped)
    ensures SseOutput(parse, Concat(parts[..k + 1])) == Decoded(chunks + emitted, stopped)
  {
    ReadStep(parts, k);
    SseLinesAppend(parse, CompleteLines(Concat(parts[..k])), CompleteLines(Rest(Concat(parts[..k])) + parts[k]));
  }

  /** Decoding the lines from `j` on starts with line `j`. */
  lemma SseLinesStep(parse: Parser, lines: seq<string>, j: nat)
    requires j < |lines|
    ensures SseStep(parse, lines[j]).Skip? ==> SseLines(parse, lines[j..]) == SseLines(parse, lines[j + 1..])
    ensures SseStep(parse, lines[j]).Stop? ==> SseLines(parse, lines[j..]) == Decoded([], true)
    ensures SseStep(parse, lines[j]).Emit? ==>
      SseLines(parse, lines[j..])
      == Decoded(SseStep(parse, lines[j]).chunks + SseLines(parse, lines[j + 1..]).chunks, SseLines(parse, lines[j + 1..]).stopped)
  {
    DropStep(lines, j);
  }

  /**
   * The line loop of one read: each complete line in order, stopping at
   * `[DONE]`.
   */
  method DecodeLines(parse: Parser, lines: seq<string>) returns (emitted: seq<AiStreamChunk>, stopped: bool)
    ensures Decoded(emitted, stopped) == SseLines(parse, lines)
  {
    emitted := [];
    ghost var goal := SseLines(parse, lines);
    var j := 0;
    while j < |lines|
      invariant 0 <= j <= |lines|
      invariant goal == Decoded(emitted + SseLines(parse, lines[j..]).chunks, SseLines(parse, lines[j..]).stopped)
    {
      SseLinesStep(parse, lines, j);
      ghost var rest := SseLines(parse, lines[j + 1..]);
      var step := SseStep(parse, lines[j]);
      match step {
        case Skip =>
        case Stop =>
          AppendEmpty(emitted);
          return emitted, true;
        case Emit(cs) =>
          AppendAssociative(emitted, cs, rest.chunks);
          emitted := emitted + cs;
      }
      j := j + 1;
    }
    DropAll(lines);
    AppendEmpty(emitted);
    stopped := false;
  }

  /**
   * The live generator over a body: a carry-over `buffer` holds the text
   * after the last newline, every complete line is decoded in order, and
   * `[DONE]` returns at once. After the last read the buffer is dropped. A
   * rejected read ends the stream with an error unless `[DONE]` came first.
   */
  method StreamBody(parse: Parser, body: Body) returns (chunks: seq<AiStreamChunk>, fails: bool)
    ensures chunks == SseOutput(parse, Concat(body.chunks)).chunks
    ensures fails <==> !SseOutput(parse, Concat(body.chunks)).stopped && body.readError
  {
    var parts := body.chunks;
    chunks := [];
    var buffer := "";
    var k := 0;
    NothingRead(parse, parts);
    while k < |parts|
      invariant 0 <= k <= |parts|
      invariant buffer == Rest(Concat(parts[..k]))
      invariant SseOutput(parse, Concat(parts[..k])) == Decoded(chunks, false)
    {
      var lines := CompleteLines(buffer + parts[k]);
      ReadStep(parts, k);
      var emitted, stopped := DecodeLines(parse, lines);
      ReadDecoded(parse, parts, k, chunks, emitted, stopped);
      chunks := chunks + emitted;
      if stopped {
        StopEndsOutput(parse, parts, k + 1);
        return chunks, false;
      }
      buffer := Rest(buffer + parts[k]);
      k := k + 1;
    }
    TakeAll(parts);
    fails := body.readError;
  }

  /** Before the first read there is no carried text and nothing decoded. */
  lemma NothingRead(parse: Parser, parts: seq<string>)
    ensures Rest(Concat(parts[..0])) == "" && SseOutput(parse, Concat(parts[..0])) == Decoded([], false)
  {
    DropAll(parts);
  }

  /** Once the lines completed by the first `m` parts stop, the whole body decodes as they do. */
  lemma StopEndsOutput(parse: Parser, parts: seq<string>, m: nat)
    requires m <= |parts|
    requires SseOutput(parse, Concat(parts[..m])).stopped
    ensures SseOutput(parse, Concat(parts)) == SseOutput(parse, Concat(parts[..m]))
  {
    var a := Concat(parts[..m]);
    var b := Concat(parts[m..]);
    ConcatSplit(parts, m);
    CompleteLinesAppend(a, b);
    NothingAfterDone(parse, CompleteLines(a), CompleteLines(Rest(a) + b));
  }

  // ---------------------------------------------------------------------------
  // Collected decoding
  // ---------------------------------------------------------------------------

  const NoText: TextAndCitations := TextAndCitations("", [])

  /** Appending the text and the citations of two partial results. */
  function Join(a: TextAndCitations, b: TextAndCitations): (r: TextAndCitations)
    ensures |r.text| == |a.text| + |b.text| && |r.citations| == |a.citations| + |b.citations|
  {
    TextAndCitations(a.text + b.text, a.citations + b.citations)
  }

  lemma JoinAssociative(a: TextAndCitations, b: TextAndCitations, c: TextAndCitations)
    ensures Join(Join(a, b), c) == Join(a, Join(b, c))
  {
    assert (a.text + b.text) + c.text == a.text + (b.text + c.text);
    assert (a.citations + b.citations) + c.citations == a.citations + (b.citations + c.citations);
  }

  lemma JoinNoText(a: TextAndCitations)
    ensures Join(a, NoText) == a && Join(NoText, a) == a
  {
    assert a.text + "" == a.text && "" + a.text == a.text;
    assert a.citations + [] == a.citations && [] + a.citations == a.citations;
  }

  /** `chunk.split("\n").filter(line => line.trim())`. */
  function NonBlank(lines: seq<string>): seq<string> {
    if lines == [] then []
    else if Trim(lines[0]) != "" then [lines[0]] + NonBlank(lines[1..])
    else NonBlank(lines[1..])
  }

  /**
   * One line of the collector, not trimmed: a `data: ` line whose payload
   * has a text delta contributes that delta's cleaned text and citations.
   */
  function CollectLine(parse: Parser, line: string): TextAndCitations {
    if StartsWith(line, DataPrefix) then
      match EventText(parse, line[|DataPrefix|..])
      case Some(delta) => Separate(parse, delta)
      case None => NoText
    else NoText
  }

  /** The lines of one read up to a line that is exactly `data: [DONE]`. */
  function CollectLines(parse: Parser, lines: seq<string>): TextAndCitations {
    if lines == [] || lines[0] == DoneLine then NoText
    else Join(CollectLine(parse, lines[0]), CollectLines(parse, lines[1..]))
  }

  /** One read, split on its own: no text is carried over from the read before. */
  function CollectRead(parse: Parser, chunk: string): TextAndCitations {
    CollectLines(parse, NonBlank(Split(chunk)))
  }

  /** Every read in order; `[DONE]` ends only the read it appears in. */
  function CollectReads(parse: Parser, parts: seq<string>): TextAndCitations {
    if parts == [] then NoText
    else Join(CollectReads(parse, parts[..|parts| - 1]), CollectRead(parse, parts[|parts| - 1]))
  }

  /** One more read joins its lines to what the reads before it collected. */
  lemma CollectReadsStep(parse: Parser, parts: seq<string>, k: nat)
    requires k < |parts|
    ensures CollectReads(parse, parts[..k + 1]) == Join(CollectReads(parse, parts[..k]), CollectRead(parse, parts[k]))
  {
    TakeStep(parts, k);
  }

  /** The line loop of one read, appending to the running content and citations. */
  method CollectLinesLoop(parse: Parser, lines: seq<string>, content: string, citations: seq<Citation>)
    returns (content': string, citations': seq<Citation>)
    ensures TextAndCitations(content', citations')
            == Join(TextAndCitations(content, citations), CollectLines(parse, lines))
  {
    content', citations' := content, citations;
    var j := 0;
    while j < |lines|
      invariant 0 <= j <= |lines|
      invariant Join(TextAndCitations(content', citations'), CollectLines(parse, lines[j..]))
                == Join(TextAndCitations(content, citations), CollectLines(parse, lines))
    {
      var line := lines[j];
      assert lines[j..][0] == line && lines[j..][1..] == lines[j + 1..];
      if line == DoneLine {
        break;
      }
      JoinAssociative(TextAndCitations(content', citations'), CollectLine(parse, line), CollectLines(parse, lines[j + 1..]));
      if StartsWith(line, DataPrefix) {
        match EventText(parse, line[|DataPrefix|..]) {
          case Some(delta) =>
            var separated := ParseTextAndCitations(parse, delta);
            content' := content' + separated.text;
            citations' := citations' + separated.citations;
          case None =>
            JoinNoText(TextAndCitations(content', citations'));
        }
      } else {
        JoinNoText(TextAndCitations(content', citations'));
      }
      j := j + 1;
    }
    JoinNoText(TextAndCitations(content', citations'));
    if j == |lines| {
      assert lines[j..] == [];
    }
  }

  /**
   * The collector over a body: the text and citations of every read, then
   * the token estimate of the text. A rejected read fails the call.
   */
  method CollectBody(parse: Parser, body: Body) returns (r: Result<AiResponse>)
    ensures body.readError ==> r == Err(ReadFailed)
    ensures !body.readError ==>
      var collected := CollectReads(parse, body.chunks);
      r == Ok(AiResponse(collected.text, CountTokens(collected.text), Some(collected.citations)))
  {
    var parts := body.chunks;
    var fullContent := "";
    var citations: seq<Citation> := [];
    var k := 0;
    while k < |parts|
      invariant 0 <= k <= |parts|
      invariant TextAndCitations(fullContent, citations) == CollectReads(parse, parts[..k])
    {
      CollectReadsStep(parse, parts, k);
      fullContent, citations := CollectLinesLoop(parse, NonBlank(Split(parts[k])), fullContent, citations);
      k := k + 1;
    }
    if body.readError {
      return Err(ReadFailed);
    }
    TakeAll(parts);
    var tokenCount := CountTokens(fullContent);
    r := Ok(AiResponse(fullContent, tokenCount, Some(citations)));
  }

  lemma TrimDone()
    ensures Trim(DoneLine) == DoneLine
  {
    assert !IsTrimmable(DoneLine[0]) && !IsTrimmable(DoneLine[|DoneLine| - 1]);
  }

  /** A read that opens with `[DONE]` contributes nothing. */
  lemma DoneRead(parse: Parser, tail: string)
    ensures CollectRead(parse, DoneLine + [Newline] + tail) == NoText
  {
    assert Newline !in DoneLine;
    LineThenRest(DoneLine, tail);
    var lines := [DoneLine] + Split(tail);
    TrimDone();
    ConsParts(DoneLine, Split(tail));
    assert NonBlank(lines) == [DoneLine] + NonBlank(Split(tail));
    ConsParts(DoneLine, NonBlank(Split(tail)));
  }

  /** `[DONE]` ends only the read it appears in: the next read is still collected. */
  lemma DoneEndsOnlyItsRead(parse: Parser, tail: string, next: string)
    ensures CollectReads(parse, [DoneLine + [Newline] + tail, next]) == CollectRead(parse, next)
  {
    var first := DoneLine + [Newline] + tail;
    DoneRead(parse, tail);
    PairParts(first, next);
    assert CollectReads(parse, [first]) == Join(NoText, NoText);
    JoinNoText(NoText);
    JoinNoText(CollectRead(parse, next));
  }

  /** A read holding one unterminated line collects that line alone, unless it is blank or `[DONE]`. */
  lemma SingleLineCollected(parse: Parser, line: string)
    requires Newline !in line
    ensures CollectRead(parse, line) == if Trim(line) != "" && line != DoneLine then CollectLine(parse, line) else NoText
  {
    SplitNoNewline(line);
    ConsParts(line, []);
    AppendEmpty([line]);
    assert NonBlank([]) == [] && CollectLines(parse, []) == NoText;
    if Trim(line) != "" {
      assert NonBlank([line]) == [line];
      if line != DoneLine {
        assert CollectLines(parse, [line]) == Join(CollectLine(parse, line), NoText);
        JoinNoText(CollectLine(parse, line));
      }
    } else {
      assert NonBlank([line]) == [];
    }
  }

  /**
   * A line cut across two reads is lost when neither half collects anything
   * on its own, though the whole line, read at once, would be collected.
   */
  lemma CollectSplitLineLost(parse: Parser, x: string, y: string)
    requires Newline !in x && Newline !in y
    requires CollectLine(parse, x) == NoText && CollectLine(parse, y) == NoText
    ensures CollectReads(parse, [x, y]) == NoText
    ensures Trim(x + y) != "" && x + y != DoneLine ==> CollectReads(parse, [x + y]) == CollectLine(parse, x + y)
  {
    SingleLineCollected(parse, x);
    SingleLineCollected(parse, y);
    assert CollectRead(parse, x) == NoText && CollectRead(parse, y) == NoText;
    PairParts(x, y);
    JoinNoText(NoText);
    assert CollectReads(parse, [x]) == Join(CollectReads(parse, []), CollectRead(parse, x));
    assert CollectReads(parse, [x, y]) == Join(CollectReads(parse, [x]), CollectRead(parse, y));
    var whole := x + y;
    assert Newline !in whole;
    SingleLineCollected(parse, whole);
    PairParts(whole, y);
    assert CollectReads(parse, [whole]) == Join(CollectReads(parse, []), CollectRead(parse, whole));
    JoinNoText(CollectRead(parse, whole));
  }

  const SplitHead: string := "data: {\"te"
  const SplitTail: string := "xt\":\"Hi\"}"

  /** Neither half of `data: {"text":"Hi"}` collects anything on its own. */
  lemma SplitHalvesCollectNothing(parse: Parser)
    requires parse("{\"te") == None
    ensures CollectLine(parse, SplitHead) == NoText && CollectLine(parse, SplitTail) == NoText
  {
    assert SplitHead[..|DataPrefix|] == DataPrefix && SplitHead[|DataPrefix|..] == "{\"te";
    assert SplitTail[0] != DataPrefix[0];
  }

  /** A `data: ` line is collected as its payload's delta, with the citations separated. */
  lemma DataLineCollected(parse: Parser, payload: string, delta: string)
    requires EventText(parse, payload) == Some(delta)
    ensures CollectLine(parse, DataPrefix + payload) == Separate(parse, delta)
  {
    AppendParts(DataPrefix, payload);
  }

  /** The two halves joined are one non-blank line other than `[DONE]`. */
  lemma SplitWholeIsLine()
    ensures Newline !in SplitHead + SplitTail
    ensures Trim(SplitHead + SplitTail) != ""
    ensures SplitHead + SplitTail != DoneLine
  {
    var whole := SplitHead + SplitTail;
    assert !IsTrimmable(whole[0]) && !IsTrimmable(whole[|whole| - 1]);
    assert Trim(whole) == whole;
    assert whole[6] != DoneLine[6];
  }

  /** The whole line, read at once, is collected as the delta "Hi". */
  lemma SplitWholeCollected(parse: Parser)
    requires parse("{\"text\":\"Hi\"}") == Some(JObj(map["text" := JStr("Hi")]))
    ensures CollectLine(parse, SplitHead + SplitTail) == Separate(parse, "Hi")
  {
    var payload := "{\"text\":\"Hi\"}";
    assert EventText(parse, payload) == Some("Hi");
    DataLineCollected(parse, payload, "Hi");
    assert SplitHead + SplitTail == DataPrefix + payload;
  }

  /** `data: {"text":"Hi"}` cut after `te` is lost by the collector, though the whole line yields "Hi". */
  lemma CollectSplitExample(parse: Parser)
    requires parse("{\"te") == None
    requires parse("{\"text\":\"Hi\"}") == Some(JObj(map["text" := JStr("Hi")]))
    ensures CollectReads(parse, [SplitHead, SplitTail]) == NoText
    ensures CollectReads(parse, [SplitHead + SplitTail]) == Separate(parse, "Hi")
  {
    SplitHalvesCollectNothing(parse);
    SplitWholeIsLine();
    SplitWholeCollected(parse);
    assert Newline !in SplitHead && Newline !in SplitTail;
    CollectSplitLineLost(parse, SplitHead, SplitTail);
  }

  /** In the live stream the same `[DONE]` ends everything, whatever follows. */
  lemma DoneEndsLiveStream(parse: Parser, tail: string)
    ensures SseOutput(parse, DoneLine + [Newline] + tail) == Decoded([], true)
  {
    assert Newline !in DoneLine;
    LineThenRest(DoneLine, tail);
    SplitIsCompleteLinesAndRest(tail);
    assert CompleteLines(DoneLine + [Newline] + tail) == [DoneLine] + CompleteLines(tail);
    TrimDone();
  }

  // ---------------------------------------------------------------------------
  // The provider call
  // ---------------------------------------------------------------------------

  /**
   * `generateResponse`: ask the last user question, then fail on a non-ok
   * status, fail when the body has no reader, and otherwise collect the body
   * or hand out the live stream, whose token total is left at 0.
   */
  method GenerateResponse(parse: Parser, server: RagServer, messages: seq<AiMessage>, streaming: bool)
    returns (r: Result<ProviderReply>)
    ensures LastUserMessage(messages).None? ==> r == Err(NoUserMessage)
    ensures LastUserMessage(messages).Some? ==>
      var response := server(RagRequest(LastUserMessage(messages).value.content));
      && (!response.ok ==> r == Err(ApiError(ApiErrorPrefix + response.statusText)))
      && (response.ok && response.body.None? ==> r == Err(NoReader))
      && (response.ok && response.body.Some? && streaming ==>
            var decoded := SseOutput(parse, Concat(response.body.value.chunks));
            r == Ok(Live(AiStreamResponse(decoded.chunks, !decoded.stopped && response.body.value.readError, 0))))
      && (response.ok && response.body.Some? && !streaming && response.body.value.readError ==> r == Err(ReadFailed))
      && (response.ok && response.body.Some? && !streaming && !response.body.value.readError ==>
            var collected := CollectReads(parse, response.body.value.chunks);
            r == Ok(Complete(AiResponse(collected.text, CountTokens(collected.text), Some(collected.citations)))))
  {
    var lastUserMessage := LastUserMessage(messages);
    if lastUserMessage.None? {
      return Err(NoUserMessage);
    }
    var response := server(RagRequest(lastUserMessage.value.content));
    if !response.ok {
      return Err(ApiError(ApiErrorPrefix + response.statusText));
    }
    if response.body.None? {
      return Err(NoReader);
    }
    if streaming {
      var chunks, fails := StreamBody(parse, response.body.value);
      r := Ok(Live(AiStreamResponse(chunks, fails, 0)));
    } else {
      var collected := CollectBody(parse, response.body.value);
      match collected {
        case Ok(full) => r := Ok(Complete(full));
        case Err(e) => r := Err(e);
      }
    }
  }
}
