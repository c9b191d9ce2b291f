/**
 * The local chat-model provider: it prepends its system prompt to the
 * conversation, posts `{model, messages, stream}` to the `/chat` endpoint,
 * and reads either one JSON response or a newline-delimited JSON stream in
 * which each line carries a piece of the reply in `message.content`.
 */
module LocalProvider {

  import opened ChatTypes
  import opened JsStrings
  import Ai4lifeProvider

  const ApiErrorPrefix: string := "AI API error: "

  /** The configured model name and the fixed system prompt. */
  datatype LocalConfig = LocalConfig(model: string, systemPrompt: string)

  /** The JSON body posted to `/chat`. */
  datatype LocalRequest = LocalRequest(model: string, messages: seq<AiMessage>, stream: bool)

  type LocalServer = LocalRequest -> HttpResponse

  /** The system prompt goes first; the conversation follows in its own order. */
  function WithSystemPrompt(systemPrompt: string, messages: seq<AiMessage>): (all: seq<AiMessage>)
    ensures |all| == |messages| + 1
    ensures all[0] == AiMessage(System, systemPrompt)
    ensures forall k :: 0 <= k < |messages| ==> all[k + 1] == messages[k]
  {
    [AiMessage(System, systemPrompt)] + messages
  }

  /** The prompt adds no user turn: the last user message of the conversation stays the last one. */
  lemma SystemPromptKeepsQuestion(systemPrompt: string, messages: seq<AiMessage>)
    ensures Ai4lifeProvider.LastUserMessage(WithSystemPrompt(systemPrompt, messages))
            == Ai4lifeProvider.LastUserMessage(messages)
  {
    var all := WithSystemPrompt(systemPrompt, messages);
    assert all[0].role != User && all[1..] == messages;
  }

  /** `data.message?.content`: the `content` member of the `message` member, when both exist. */
  function ContentOf(data: Json): Option<Json> {
    match Member(data, "message")
    case None => None
    case Some(message) => Member(message, "content")
  }

  /**
   * `data.message?.content || ""` of a complete response: the content when
   * it is a string, `""` when any step is missing or the content is falsy.
   * A `null` payload throws; a truthy non-string content cannot be counted.
   */
  function ResponseContent(data: Json): (r: Result<string>)
    ensures r.Ok? && r.value != "" ==>
      data.JObj? && "message" in data.members && data.members["message"].JObj?
      && "content" in data.members["message"].members
      && data.members["message"].members["content"] == JStr(r.value)
    ensures data.JObj? && "message" !in data.members ==> r == Ok("")
    ensures data.JNull? ==> r == Err(UnsupportedContent)
    ensures !data.JNull? && ContentOf(data).None? ==> r == Ok("")
    ensures ContentOf(data).Some? && ContentOf(data).value.JStr? ==> r == Ok(ContentOf(data).value.s)
    ensures ContentOf(data).Some? && !Truthy(ContentOf(data).value) ==> r == Ok("")
    ensures ContentOf(data).Some? && Truthy(ContentOf(data).value) && !ContentOf(data).value.JStr?
            ==> r == Err(UnsupportedContent)
  {
    if data.JNull? then Err(UnsupportedContent)
    else match ContentOf(data)
      case None => Ok("")
      case Some(content) =>
        if !Truthy(content) then Ok("")
        else if content.JStr? then Ok(content.s)
        else Err(UnsupportedContent)
  }

  /**
   * The complete reply: the whole body parsed as one JSON value. A response
   * without a body has nothing to parse, so `response.json()` rejects it.
   */
  function CompleteReply(parse: Parser, body: Option<Body>): (r: Result<AiResponse>)
    ensures r.Ok? ==> r.value.tokenCount == CountTokens(r.value.content) && r.value.citations.None?
    ensures body.None? ==> r == Err(InvalidJson)
    ensures body.Some? && body.value.readError ==> r == Err(ReadFailed)
    ensures body.Some? && !body.value.readError ==>
      var text := Concat(body.value.chunks);
      && (parse(text).None? ==> r == Err(InvalidJson))
      && (parse(text).Some? ==>
            r == match ResponseContent(parse(text).value)
                 case Ok(content) => Ok(AiResponse(content, CountTokens(content), None))
                 case Err(e) => Err(e))
  {
    if body.None? then Err(InvalidJson)
    else if body.value.readError then Err(ReadFailed)
    else match parse(Concat(body.value.chunks))
      case None => Err(InvalidJson)
      case Some(data) =>
        match ResponseContent(data)
        case Err(e) => Err(e)
        case Ok(content) => Ok(AiResponse(content, CountTokens(content), None))
  }

  /** A response without a message member has empty content and no tokens. */
  lemma MissingMessageIsEmpty(parse: Parser, body: Body, members: map<string, Json>)
    requires !body.readError && parse(Concat(body.chunks)) == Some(JObj(members)) && "message" !in members
    ensures CompleteReply(parse, Some(body)) == Ok(AiResponse("", 0, None))
  {
  }

  /** `{"message": {"content": c}}` is replied as `c`, with its token estimate. */
  lemma StringContentReplied(parse: Parser, body: Body, c: string)
    requires !body.readError
    requires parse(Concat(body.chunks)) == Some(JObj(map["message" := JObj(map["content" := JStr(c)])]))
    ensures CompleteReply(parse, Some(body)) == Ok(AiResponse(c, CountTokens(c), None))
  {
    var message := JObj(map["content" := JStr(c)]);
    assert Member(JObj(map["message" := message]), "message") == Some(message);
    assert Member(message, "content") == Some(JStr(c));
  }

  /** A `null` reply, or a body that is not JSON, fails the call. */
  lemma UnusableReplyFails(parse: Parser, body: Body)
    requires !body.readError
    requires parse(Concat(body.chunks)).None? || parse(Concat(body.chunks)) == Some(JNull)
    ensures CompleteReply(parse, Some(body)).Err?
    ensures parse(Concat(body.chunks)).None? ==> CompleteReply(parse, Some(body)) == Err(InvalidJson)
  {
  }

  // ---------------------------------------------------------------------------
  // Streaming
  // ---------------------------------------------------------------------------

  /**
   * The piece of the reply on one stream line: `JSON.parse(line).message.content`
   * when it is a non-empty string. Lines that do not parse, a `null` value
   * and a missing or falsy content give nothing.
   */
  function LineText(parse: Parser, line: string): (r: Option<string>)
    ensures r.Some? ==> r.value != ""
    ensures r.Some? <==> (parse(line).Some? && ContentOf(parse(line).value).Some?
                          && ContentOf(parse(line).value).value.JStr?
                          && ContentOf(parse(line).value).value.s != "")
    ensures r.Some? ==> r.value == ContentOf(parse(line).value).value.s
  {
    match parse(line)
    case None => None
    case Some(data) =>
      match ContentOf(data)
      case Some(JStr(s)) => if s != "" then Some(s) else None
      case _ => None
  }

  /** The chunk one line yields, if any. */
  function LineChunk(parse: Parser, line: string): seq<AiStreamChunk> {
    match LineText(parse, line) case Some(s) => [AiStreamChunk(s, None)] case None => []
  }

  /** The chunks of the lines of one read, in order. */
  function LinesOutput(parse: Parser, lines: seq<string>): seq<AiStreamChunk> {
    if lines == [] then [] else LineChunk(parse, lines[0]) + LinesOutput(parse, lines[1..])
  }

  /** One more line read moves its chunk from what is left to what is output. */
  lemma LinesOutputStep(parse: Parser, lines: seq<string>, j: nat, acc: seq<AiStreamChunk>)
    requires j < |lines|
    ensures acc + LinesOutput(parse, lines[j..]) == (acc + LineChunk(parse, lines[j])) + LinesOutput(parse, lines[j + 1..])
  {
    assert lines[j..][0] == lines[j] && lines[j..][1..] == lines[j + 1..];
  }

  /** One read, split and filtered on its own: nothing is carried to the next read. */
  function ReadOutput(parse: Parser, chunk: string): seq<AiStreamChunk> {
    LinesOutput(parse, Ai4lifeProvider.NonBlank(Split(chunk)))
  }

  /** Every read in order. */
  function ReadsOutput(parse: Parser, parts: seq<string>): seq<AiStreamChunk> {
    FlatMap(chunk => ReadOutput(parse, chunk), parts)
  }

  /** The reads are decoded independently: a run of reads decodes as its pieces do. */
  lemma ReadsOutputAppend(parse: Parser, a: seq<string>, b: seq<string>)
    ensures ReadsOutput(parse, a + b) == ReadsOutput(parse, a) + ReadsOutput(parse, b)
  {
    FlatMapAppend(chunk => ReadOutput(parse, chunk), a, b);
  }

  /** A read holding one unterminated line decodes that line alone. */
  lemma SingleLineRead(parse: Parser, line: string)
    requires Newline !in line
    ensures ReadOutput(parse, line)
            == if Trim(line) != "" && LineText(parse, line).Some? then [AiStreamChunk(LineText(parse, line).value, None)] else []
    ensures ReadOutput(parse, line) != [] ==>
      ReadOutput(parse, line) == [AiStreamChunk(ContentOf(parse(line).value).value.s, None)]
  {
    SplitNoNewline(line);
    assert [line][1..] == [];
    if Trim(line) != "" {
      assert Ai4lifeProvider.NonBlank([line]) == [line];
      assert LinesOutput(parse, [line]) == LinesOutput(parse, [line][..1]);
    }
  }

  /**
   * A line split across two reads is lost when neither half parses on its
   * own, though the whole line would have yielded its content.
   */
  lemma SplitLineLost(parse: Parser, x: string, y: string)
    requires Newline !in x && Newline !in y
    requires LineText(parse, x).None? && LineText(parse, y).None?
    ensures ReadsOutput(parse, [x, y]) == []
    ensures Trim(x + y) != "" && LineText(parse, x + y).Some? ==>
      ReadsOutput(parse, [x + y]) == [AiStreamChunk(LineText(parse, x + y).value, None)]
    ensures Trim(x + y) != "" && LineText(parse, x + y).Some? ==>
      ReadsOutput(parse, [x + y])
      == [AiStreamChunk(ContentOf(parse(x + y).value).value.s, None)]
  {
    SingleLineRead(parse, x);
    SingleLineRead(parse, y);
    assert Newline !in x + y;
    SingleLineRead(parse, x + y);
    FlatMapPair(chunk => ReadOutput(parse, chunk), x, y);
    FlatMapPair(chunk => ReadOutput(parse, chunk), x + y, y);
  }

  /** The line loop of one read, appending each piece of content. */
  method ReadLinesLoop(parse: Parser, lines: seq<string>, chunks: seq<AiStreamChunk>) returns (chunks': seq<AiStreamChunk>)
    ensures chunks' == chunks + LinesOutput(parse, lines)
  {
    chunks' := chunks;
    var j := 0;
    while j < |lines|
      invariant 0 <= j <= |lines|
      invariant chunks' + LinesOutput(parse, lines[j..]) == chunks + LinesOutput(parse, lines)
    {
      LinesOutputStep(parse, lines, j, chunks');
      chunks' := chunks' + LineChunk(parse, lines[j]);
      j := j + 1;
    }
    assert lines[|lines|..] == [];
    assert chunks' + [] == chunks';
  }

  /** The live generator over a body; a rejected read ends it with an error. */
  method StreamBody(parse: Parser, body: Body) returns (chunks: seq<AiStreamChunk>, fails: bool)
    ensures chunks == ReadsOutput(parse, body.chunks)
    ensures fails == body.readError
  {
    var parts := body.chunks;
    chunks := [];
    var k := 0;
    while k < |parts|
      invariant 0 <= k <= |parts|
      invariant chunks == ReadsOutput(parse, parts[..k])
    {
      assert parts[..k + 1][..k] == parts[..k];
      assert ReadsOutput(parse, parts[..k + 1]) == ReadsOutput(parse, parts[..k]) + ReadOutput(parse, parts[k]);
      chunks := ReadLinesLoop(parse, Ai4lifeProvider.NonBlank(Split(parts[k])), chunks);
      k := k + 1;
    }
    assert parts[..|parts|] == parts;
    fails := body.readError;
  }

  /**
   * `generateResponse`: the system prompt and the conversation are posted;
   * a non-ok status fails the call; otherwise the complete reply is read,
   * or, when streaming, a missing reader fails the call and the live stream
   * is handed out with a token total of 0.
   */
  method GenerateResponse(parse: Parser, config: LocalConfig, server: LocalServer, messages: seq<AiMessage>, streaming: bool)
    returns (r: Result<ProviderReply>)
    ensures var response := server(LocalRequest(config.model, WithSystemPrompt(config.systemPrompt, messages), streaming));
      && (!response.ok ==> r == Err(ApiError(ApiErrorPrefix + response.statusText)))
      && (response.ok && !streaming ==>
            r == match CompleteReply(parse, response.body) case Ok(full) => Ok(Complete(full)) case Err(e) => Err(e))
      && (response.ok && streaming && response.body.None? ==> r == Err(NoReader))
      && (response.ok && streaming && response.body.Some? ==>
            r == Ok(Live(AiStreamResponse(ReadsOutput(parse, response.body.value.chunks), response.body.value.readError, 0))))
  {
    var allMessages := WithSystemPrompt(config.systemPrompt, messages);
    var response := server(LocalRequest(config.model, allMessages, streaming));
    if !response.ok {
      return Err(ApiError(ApiErrorPrefix + response.statusText));
    }
    if !streaming {
      match CompleteReply(parse, response.body) {
        case Ok(full) => r := Ok(Complete(full));
        case Err(e) => r := Err(e);
      }
      return;
    }
    if response.body.None? {
      return Err(NoReader);
    }
    var chunks, fails := StreamBody(parse, response.body.value);
    r := Ok(Live(AiStreamResponse(chunks, fails, 0)));
  }
}
