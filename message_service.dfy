/**
 * The message service: one conversational turn. The user's message is saved,
 * the recent history that fits 70% of the conversation's budget is sent to
 * the provider, and the assistant's reply is saved and the conversation's
 * token total recomputed, either at once or, for a streamed reply, once the
 * stream has been read to its end.
 */
module MessageService {

  import opened ChatTypes
  import opened ChatStore
  import opened ChatService
  import Ai4lifeProvider
  import CitationParsing

  // ---------------------------------------------------------------------------
  // Titles of new conversations
  // ---------------------------------------------------------------------------

  const TitleLimit: nat := 100
  const TitleKeep: nat := 97
  const Ellipsis: string := "..."

  /** A first message over 100 characters is cut to 97 and marked with an ellipsis. */
  function TitleFor(content: string): (title: string)
    ensures |title| <= TitleLimit || title == content
    ensures |content| > TitleLimit ==>
      |title| == TitleLimit && title[..TitleKeep] == content[..TitleKeep] && title[TitleKeep..] == Ellipsis
    ensures |content| <= TitleLimit ==> title == content
  {
    if |content| > TitleLimit then content[..TitleKeep] + Ellipsis else content
  }

  /** A title is its own title: truncating twice is truncating once. */
  lemma TitleIdempotent(content: string)
    ensures TitleFor(TitleFor(content)) == TitleFor(content)
    ensures |TitleFor(content)| <= TitleLimit
  {
  }

  // ---------------------------------------------------------------------------
  // Shared steps of a turn
  // ---------------------------------------------------------------------------

  /** The row a user message is saved as: its token count is the estimate of its content. */
  function UserRow(id: nat, conversationId: nat, content: string): (m: Message)
    ensures m.role == User && m.content == content && m.tokenCount == CountTokens(content)
    ensures m.id == id && m.conversationId == conversationId
  {
    Message(id, conversationId, User, content, CountTokens(content))
  }

  /** What the provider is sent: the suffix of the history that fits `maxTokens * 0.7`. */
  function ContextFor(history: seq<Message>, maxTokens: nat): seq<AiMessage> {
    Project(history[FirstFit(history, 7 * maxTokens)..])
  }

  /**
   * The message just saved is the newest history entry, so it ends the
   * context whenever it fits the budget on its own; when it does not, the
   * context is empty.
   */
  lemma QuestionEndsContext(history: seq<Message>, question: Message, maxTokens: nat)
    ensures 10 * question.tokenCount <= 7 * maxTokens ==>
      var context := ContextFor(history + [question], maxTokens);
      context != [] && context[|context| - 1] == AiMessage(question.role, question.content)
    ensures 10 * question.tokenCount > 7 * maxTokens ==> ContextFor(history + [question], maxTokens) == []
  {
    var all := history + [question];
    var n := |all| - 1;
    assert all[n..][1..] == [];
    assert TokenSum(all[n..]) == question.tokenCount;
    if 10 * question.tokenCount > 7 * maxTokens {
      NewestTooLargeGivesEmpty(all, 7 * maxTokens);
    } else {
      FirstFitIsLongest(all, 7 * maxTokens);
      var s := FirstFit(all, 7 * maxTokens);
      assert s <= n;
      assert all[s..][|all[s..]| - 1] == question;
    }
  }

  /** A context ending in the user's message makes that message the remote provider's question. */
  lemma QuestionIsAsked(context: seq<AiMessage>)
    requires context != [] && context[|context| - 1].role == User
    ensures Ai4lifeProvider.LastUserMessage(context) == Some(context[|context| - 1])
  {
    Ai4lifeProvider.LastUserMessageIsLast(context);
  }

  /**
   * The user half of every turn: save the message with its estimated token
   * count, then read the context back from the history that now ends with it.
   */
  method AskQuestion(store: Store, conversationId: nat, maxTokens: nat, content: string, ghost history: seq<Message>)
    returns (userMessage: Message, context: seq<AiMessage>)
    requires store.Valid() && conversationId < store.nextId
    requires history == OfConversation(store.messages, conversationId)
    modifies store
    ensures store.Valid()
    ensures userMessage == UserRow(old(store.nextId), conversationId, content)
    ensures context == ContextFor(history + [userMessage], maxTokens)
    ensures store.messages == old(store.messages) + [userMessage]
    ensures store.conversations == old(store.conversations) && store.nextId == old(store.nextId) + 1
    ensures store.journal == old(store.journal) + [SavedMessage(userMessage.id)]
  {
    userMessage := store.SaveMessage(conversationId, User, content, CountTokens(content));
    OfConversationAppend(old(store.messages), userMessage, conversationId);
    context := GetRecentMessagesForContext(store, conversationId, 7 * maxTokens);
  }

  /** The assistant half: save the reply, then recompute the conversation's total. */
  method SaveReply(store: Store, conversationId: nat, content: string, tokenCount: nat) returns (reply: Message)
    requires store.Valid() && conversationId < store.nextId
    modifies store
    ensures store.Valid()
    ensures reply == Message(old(store.nextId), conversationId, Assistant, content, tokenCount)
    ensures store.messages == old(store.messages) + [reply] && store.nextId == old(store.nextId) + 1
    ensures store.conversations == Recomputed(old(store.conversations), store.messages, conversationId)
    ensures store.journal == old(store.journal)
            + [SavedMessage(reply.id), UpdatedTotal(conversationId, TokenSum(OfConversation(store.messages, conversationId)))]
  {
    reply := store.SaveMessage(conversationId, Assistant, content, tokenCount);
    UpdateConversationTokens(store, conversationId);
  }

  // ---------------------------------------------------------------------------
  // Turns
  // ---------------------------------------------------------------------------

  datatype Turn = Turn(userMessage: Message, assistantMessage: Message)

  /**
   * `sendMessage`: the conversation check; the user message, saved before
   * the context is read; the provider's reply, saved with the provider's
   * token count; the recomputed total. When the provider fails, the user
   * message stays saved and nothing more is written.
   */
  method SendMessage(store: Store, respond: seq<AiMessage> -> Result<AiResponse>, conversationId: nat, userId: string, content: string)
    returns (r: Result<Turn>)
    requires store.Valid()
    modifies store
    ensures store.Valid()
    ensures old(GetConversationById(store, conversationId, userId)).Err? ==>
      r == Err(NotFound(NotFoundMessage)) && unchanged(store)
    ensures old(GetConversationById(store, conversationId, userId)).Ok? ==>
      var u := UserRow(old(store.nextId), conversationId, content);
      var context := ContextFor(OfConversation(old(store.messages), conversationId) + [u],
                                old(store.conversations)[conversationId].maxTokens);
      && (respond(context).Err? ==>
            && r == Err(respond(context).error)
            && store.messages == old(store.messages) + [u]
            && store.conversations == old(store.conversations) && store.nextId == old(store.nextId) + 1
            && store.journal == old(store.journal) + [SavedMessage(u.id)])
      && (respond(context).Ok? ==>
            var a := Message(u.id + 1, conversationId, Assistant, respond(context).value.content,
                             respond(context).value.tokenCount);
            && r == Ok(Turn(u, a))
            && store.messages == old(store.messages) + [u] + [a] && store.nextId == old(store.nextId) + 2
            && store.conversations == Recomputed(old(store.conversations), store.messages, conversationId)
            && store.journal == old(store.journal)
               + [SavedMessage(u.id)] + [SavedMessage(a.id), UpdatedTotal(conversationId, TokenSum(OfConversation(store.messages, conversationId)))])
  {
    var found := GetConversationById(store, conversationId, userId);
    if found.Err? {
      return Err(found.error);
    }
    var conversation := found.value;
    var userMessage, context := AskQuestion(store, conversationId, conversation.maxTokens, content, store.History(conversationId));
    var response := respond(context);
    if response.Err? {
      return Err(response.error);
    }
    var assistantMessage := SaveReply(store, conversationId, response.value.content, response.value.tokenCount);
    r := Ok(Turn(userMessage, assistantMessage));
  }

  /** A streamed turn so far: the saved user message and the stream still to be read. */
  datatype StreamTurn = StreamTurn(userMessage: Message, source: AiStreamResponse, conversationId: nat)

  /**
   * `sendMessageStreaming`: the conversation check, the user message and
   * the provider's stream, unread; the assistant message is saved only when
   * the stream is read, by `WrapStreamWithSave`.
   */
  method SendMessageStreaming(store: Store, streamOf: seq<AiMessage> -> Result<AiStreamResponse>,
                              conversationId: nat, userId: string, content: string)
    returns (r: Result<StreamTurn>)
    requires store.Valid()
    modifies store
    ensures store.Valid()
    ensures old(GetConversationById(store, conversationId, userId)).Err? ==>
      r == Err(NotFound(NotFoundMessage)) && unchanged(store)
    ensures old(GetConversationById(store, conversationId, userId)).Ok? ==>
      var u := UserRow(old(store.nextId), conversationId, content);
      var context := ContextFor(OfConversation(old(store.messages), conversationId) + [u],
                                old(store.conversations)[conversationId].maxTokens);
      && r == (match streamOf(context) case Ok(source) => Ok(StreamTurn(u, source, conversationId)) case Err(e) => Err(e))
      && store.messages == old(store.messages) + [u]
      && store.conversations == old(store.conversations) && store.nextId == old(store.nextId) + 1
      && store.journal == old(store.journal) + [SavedMessage(u.id)]
  {
    var found := GetConversationById(store, conversationId, userId);
    if found.Err? {
      return Err(found.error);
    }
    var conversation := found.value;
    var userMessage, context := AskQuestion(store, conversationId, conversation.maxTokens, content, store.History(conversationId));
    var response := streamOf(context);
    if response.Err? {
      return Err(response.error);
    }
    r := Ok(StreamTurn(userMessage, response.value, conversationId));
  }

  /**
   * The title a first message gives its conversation: the truncated message,
   * passed as the creation title, so an empty message falls back to the
   * default title.
   */
  function FirstTitle(content: string): (title: string)
    ensures content == "" ==> title == DefaultTitle
    ensures content != "" ==> title == TitleFor(content)
  {
    TitleOrDefault(Some(TitleFor(content)))
  }

  /**
   * The conversation a first message opens: titled after the message, with
   * no history yet, because every stored message refers to an older one.
   */
  method StartConversation(store: Store, userId: string, content: string) returns (c: Conversation)
    requires store.Valid()
    modifies store
    ensures store.Valid()
    ensures c == Conversation(old(store.nextId), userId, FirstTitle(content), 0, DefaultMaxTokens, false)
    ensures store.nextId == c.id + 1
    ensures OfConversation(store.messages, c.id) == []
    ensures store.messages == old(store.messages)
    ensures store.conversations == old(store.conversations)[c.id := c]
    ensures store.journal == old(store.journal) + [SavedConversation(c.id)]
  {
    assert forall k :: 0 <= k < |store.messages| ==> store.messages[k].conversationId < store.nextId;
    c := CreateConversation(store, userId, Some(TitleFor(content)));
    assert c.title == FirstTitle(content);
    NoHistory(store.messages, c.id);
  }

  /** The context of a first message: the message itself when it fits the default budget. */
  function FirstContext(content: string): seq<AiMessage> {
    if 10 * CountTokens(content) <= 7 * DefaultMaxTokens then [AiMessage(User, content)] else []
  }

  /** A fresh conversation's context is the first message, or nothing when it is too large. */
  lemma FreshContext(conversationId: nat, content: string)
    ensures ContextFor([] + [UserRow(conversationId + 1, conversationId, content)], DefaultMaxTokens)
            == FirstContext(content)
  {
    var u := UserRow(conversationId + 1, conversationId, content);
    QuestionEndsContext([], u, DefaultMaxTokens);
  }

  /** The user half of a first turn, whose history is the message alone. */
  method AskFirstQuestion(store: Store, conversationId: nat, content: string) returns (userMessage: Message, context: seq<AiMessage>)
    requires store.Valid() && conversationId < store.nextId
    requires OfConversation(store.messages, conversationId) == []
    modifies store
    ensures store.Valid()
    ensures userMessage == UserRow(old(store.nextId), conversationId, content)
    ensures context == FirstContext(content)
    ensures store.messages == old(store.messages) + [userMessage]
    ensures store.conversations == old(store.conversations) && store.nextId == old(store.nextId) + 1
    ensures store.journal == old(store.journal) + [SavedMessage(userMessage.id)]
  {
    userMessage, context := AskQuestion(store, conversationId, DefaultMaxTokens, content, []);
    FreshContext(conversationId, content);
  }

  /** A conversation holding one exchange totals the two messages' counts. */
  lemma FreshTotal(before: seq<Message>, u: Message, a: Message)
    requires OfConversation(before, u.conversationId) == [] && a.conversationId == u.conversationId
    ensures TokenSum(OfConversation(before + [u] + [a], u.conversationId)) == u.tokenCount + a.tokenCount
  {
    var id := u.conversationId;
    OfConversationAppend(before, u, id);
    AppendEmpty([u]);
    OfConversationAppend(before + [u], a, id);
    ConsParts(u, [a]);
    ConsParts(a, []);
    AppendEmpty([a]);
    assert TokenSum([a]) == a.tokenCount;
  }

  /** Recomputing a conversation just stored replaces only its total. */
  lemma FreshRecompute(conversations: map<nat, Conversation>, c: Conversation, messages: seq<Message>)
    ensures Recomputed(conversations[c.id := c], messages, c.id)
            == conversations[c.id := c.(totalTokens := TokenSum(OfConversation(messages, c.id)))]
  {
  }

  datatype FirstTurn = FirstTurn(conversation: Conversation, userMessage: Message, assistantMessage: Message)

  /**
   * `sendFirstMessage`: a new conversation titled after the message, then
   * the same exchange as `sendMessage`; the new total is the two new
   * messages' counts.
   */
  method SendFirstMessage(store: Store, respond: seq<AiMessage> -> Result<AiResponse>, userId: string, content: string)
    returns (r: Result<FirstTurn>)
    requires store.Valid()
    modifies store
    ensures store.Valid()
    ensures var c := Conversation(old(store.nextId), userId, FirstTitle(content), 0, DefaultMaxTokens, false);
      var u := UserRow(c.id + 1, c.id, content);
      && (respond(FirstContext(content)).Err? ==>
            && r == Err(respond(FirstContext(content)).error)
            && store.messages == old(store.messages) + [u] && store.nextId == old(store.nextId) + 2
            && store.conversations == old(store.conversations)[c.id := c]
            && store.journal == old(store.journal) + [SavedConversation(c.id)] + [SavedMessage(u.id)])
      && (respond(FirstContext(content)).Ok? ==>
            var a := Message(u.id + 1, c.id, Assistant, respond(FirstContext(content)).value.content,
                             respond(FirstContext(content)).value.tokenCount);
            var total := u.tokenCount + a.tokenCount;
            && r == Ok(FirstTurn(c, u, a))
            && store.messages == old(store.messages) + [u] + [a] && store.nextId == old(store.nextId) + 3
            && store.conversations == old(store.conversations)[c.id := c.(totalTokens := total)]
            && store.journal == old(store.journal)
               + [SavedConversation(c.id)] + [SavedMessage(u.id)] + [SavedMessage(a.id), UpdatedTotal(c.id, total)])
  {
    var conversation := StartConversation(store, userId, content);
    ghost var before := store.messages;
    var userMessage, context := AskFirstQuestion(store, conversation.id, content);
    var response := respond(context);
    if response.Err? {
      return Err(response.error);
    }
    var assistantMessage := SaveReply(store, conversation.id, response.value.content, response.value.tokenCount);
    FreshTotal(before, userMessage, assistantMessage);
    FreshRecompute(old(store.conversations), conversation, store.messages);
    r := Ok(FirstTurn(conversation, userMessage, assistantMessage));
  }

  datatype FirstStreamTurn = FirstStreamTurn(conversation: Conversation, userMessage: Message, source: AiStreamResponse)

  /** `sendFirstMessageStreaming`: a new titled conversation, the user message, and the unread stream. */
  method SendFirstMessageStreaming(store: Store, streamOf: seq<AiMessage> -> Result<AiStreamResponse>, userId: string, content: string)
    returns (r: Result<FirstStreamTurn>)
    requires store.Valid()
    modifies store
    ensures store.Valid()
    ensures var c := Conversation(old(store.nextId), userId, FirstTitle(content), 0, DefaultMaxTokens, false);
      var u := UserRow(c.id + 1, c.id, content);
      && r == (match streamOf(FirstContext(content)) case Ok(source) => Ok(FirstStreamTurn(c, u, source)) case Err(e) => Err(e))
      && store.messages == old(store.messages) + [u] && store.nextId == old(store.nextId) + 2
      && store.conversations == old(store.conversations)[c.id := c]
      && store.journal == old(store.journal) + [SavedConversation(c.id)] + [SavedMessage(u.id)]
  {
    var conversation := StartConversation(store, userId, content);
    var userMessage, context := AskFirstQuestion(store, conversation.id, content);
    var response := streamOf(context);
    if response.Err? {
      return Err(response.error);
    }
    r := Ok(FirstStreamTurn(conversation, userMessage, response.value));
  }

  // ---------------------------------------------------------------------------
  // Reading a streamed reply
  // ---------------------------------------------------------------------------

  /**
   * `chunk.text || ""` for each chunk; a chunk's text is always a string,
   * so a citation chunk contributes its empty text.
   */
  function ChunkTexts(chunks: seq<AiStreamChunk>): (texts: seq<string>)
    ensures |texts| == |chunks|
    ensures forall k :: 0 <= k < |texts| ==> texts[k] == chunks[k].text
  {
    if chunks == [] then [] else ChunkTexts(chunks[..|chunks| - 1]) + [chunks[|chunks| - 1].text]
  }

  lemma ChunkTextsAppend(a: seq<AiStreamChunk>, b: seq<AiStreamChunk>)
    ensures ChunkTexts(a + b) == ChunkTexts(a) + ChunkTexts(b)
  {
  }

  /** The content saved for a stream: everything it yielded, in order. */
  function StreamedContent(chunks: seq<AiStreamChunk>): string {
    Concat(ChunkTexts(chunks))
  }

  lemma {:induction false} StreamedContentAppend(a: seq<AiStreamChunk>, b: seq<AiStreamChunk>)
    ensures StreamedContent(a + b) == StreamedContent(a) + StreamedContent(b)
  {
    ChunkTextsAppend(a, b);
    ConcatAppend(ChunkTexts(a), ChunkTexts(b));
  }

  /** Two text chunks "Hello" and "World" are saved as "HelloWorld", three tokens. */
  lemma HelloWorldStream()
    ensures StreamedContent([AiStreamChunk("Hello", None), AiStreamChunk("World", None)]) == "Hello" + "World"
    ensures CountTokens(StreamedContent([AiStreamChunk("Hello", None), AiStreamChunk("World", None)])) == 3
  {
    var chunks := [AiStreamChunk("Hello", None), AiStreamChunk("World", None)];
    assert ChunkTexts(chunks) == ["Hello", "World"];
    ConcatCons("Hello", ["World"]);
    ConcatSingle("World");
    CountTokensHelloWorld();
  }

  /** Citation chunks add nothing to the saved content. */
  lemma {:induction false} CitationsAddNothing(citations: seq<Citation>)
    ensures StreamedContent(Ai4lifeProvider.CitationChunks(citations)) == ""
    decreases |citations|
  {
    var chunks := Ai4lifeProvider.CitationChunks(citations);
    if citations != [] {
      assert chunks == [chunks[0]] + Ai4lifeProvider.CitationChunks(citations[1..]);
      StreamedContentAppend([chunks[0]], Ai4lifeProvider.CitationChunks(citations[1..]));
      assert ChunkTexts([chunks[0]]) == [""];
      ConcatSingle("");
      CitationsAddNothing(citations[1..]);
    }
  }

  /** What one remote event adds to the saved content is its text with the citations cut out. */
  lemma DeltaContent(parse: Parser, delta: string)
    ensures StreamedContent(Ai4lifeProvider.DeltaChunks(parse, delta)) == CitationParsing.Separate(parse, delta).text
  {
    var separated := CitationParsing.Separate(parse, delta);
    var head: seq<AiStreamChunk> := if separated.text != "" then [AiStreamChunk(separated.text, None)] else [];
    StreamedContentAppend(head, Ai4lifeProvider.CitationChunks(separated.citations));
    CitationsAddNothing(separated.citations);
    if separated.text != "" {
      assert ChunkTexts(head) == [separated.text];
      ConcatSingle(separated.text);
    } else {
      assert ChunkTexts(head) == [];
    }
  }

  /** The `for await` loop of `wrapStreamWithSave`: forward each text and accumulate it. */
  method Forward(stream: seq<AiStreamChunk>) returns (yielded: seq<string>, fullContent: string)
    ensures yielded == ChunkTexts(stream)
    ensures fullContent == Concat(yielded)
  {
    fullContent := "";
    yielded := [];
    var k := 0;
    while k < |stream|
      invariant 0 <= k <= |stream|
      invariant yielded == ChunkTexts(stream[..k])
      invariant fullContent == Concat(yielded)
    {
      var text := stream[k].text;
      TakeStep(stream, k);
      SnocParts(yielded, text);
      fullContent := fullContent + text;
      yielded := yielded + [text];
      k := k + 1;
    }
    TakeAll(stream);
  }

  /**
   * `wrapStreamWithSave`: forward each chunk's text while accumulating it;
   * once the source is exhausted, save one assistant message holding the
   * whole content with its estimated token count, then recompute the total.
   * A source that fails ends the stream before anything is saved.
   */
  method WrapStreamWithSave(store: Store, source: AiStreamResponse, conversationId: nat)
    returns (yielded: seq<string>, saved: Option<Message>)
    requires store.Valid() && conversationId < store.nextId
    modifies store
    ensures store.Valid()
    ensures yielded == ChunkTexts(source.stream)
    ensures source.streamFails ==> saved.None? && unchanged(store)
    ensures !source.streamFails ==>
      var content := Concat(yielded);
      && saved == Some(Message(old(store.nextId), conversationId, Assistant, content, CountTokens(content)))
      && store.messages == old(store.messages) + [saved.value] && store.nextId == old(store.nextId) + 1
      && saved.value.content == StreamedContent(source.stream)
      && 4 * saved.value.tokenCount >= TotalLength(yielded)
      && store.conversations == Recomputed(old(store.conversations), store.messages, conversationId)
      && store.journal == old(store.journal)
         + [SavedMessage(saved.value.id), UpdatedTotal(conversationId, TokenSum(OfConversation(store.messages, conversationId)))]
  {
    var fullContent;
    yielded, fullContent := Forward(source.stream);
    if source.streamFails {
      return yielded, None;
    }
    var assistantMessage := SaveReply(store, conversationId, fullContent, CountTokens(fullContent));
    SavedIsStreamed(source, assistantMessage);
    saved := Some(assistantMessage);
  }

  /**
   * A reply saved from a stream holds everything the stream yielded, and its
   * token count is the estimate of the total length of the yielded texts.
   */
  lemma SavedIsStreamed(source: AiStreamResponse, saved: Message)
    requires saved.content == Concat(ChunkTexts(source.stream)) && saved.tokenCount == CountTokens(saved.content)
    ensures 4 * saved.tokenCount >= TotalLength(ChunkTexts(source.stream))
    ensures 4 * saved.tokenCount < TotalLength(ChunkTexts(source.stream)) + 4
  {
    ConcatLength(ChunkTexts(source.stream));
  }

  // ---------------------------------------------------------------------------
  // Search
  // ---------------------------------------------------------------------------

  /** `searchMessages`: the page of matches and their total, with the pagination block. */
  function SearchMessages(items: seq<Message>, total: nat, page: int, limit: int): (r: Listing<Message>)
    ensures r.items == items
    ensures r.pagination.page == page && r.pagination.pageSize == limit && r.pagination.totalItems == total
    ensures r.pagination.totalPages == PageCount(total, limit)
  {
    Listing(items, Paginate(page, limit, total))
  }
}
