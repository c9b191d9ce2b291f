# Chat turn pipeline of a medical chatbot back end

This project models the chat core of a NestJS back end, as Dafny. A user owns
conversations. Each conversation holds messages, a token total and a token
budget. One turn goes like this:

1. The user's message is saved with an estimated token count (one token per
   four characters, rounded up).
2. The newest messages that fit 70% of the conversation's budget are sent to
   a language-model provider.
3. The assistant's reply is saved, and the conversation's token total is
   recomputed from its messages.

A streamed turn hands the reply out chunk by chunk. It saves the reply only
once the stream has been read to its end.

There are two providers:

- **The remote retrieval-augmented provider** asks only the last user
  question. It reads a server-sent-event body (`data: {json}` lines ending
  with `data: [DONE]`). Inline citation objects are cut out of each text
  delta and returned separately.
- **The local provider** prepends a system prompt to the whole conversation.
  It reads either one JSON reply or a stream of JSON lines.

The modules follow the services:

- `ChatTypes`: shared values (messages, JSON, citations, stream chunks, HTTP
  bodies) and the token estimate.
- `JsStrings`: the string operations the code relies on (`trim`,
  `split("\n")`, `startsWith`, a first-occurrence `replace`).
- `CitationParsing`: `parseTextAndCitations`.
- `Ai4lifeProvider`: the remote provider.
- `LocalProvider`: the local provider.
- `ChatStore`: the repositories, as one in-memory store class. It records a
  journal of its writes.
- `ChatService`: `ChatService`, the conversation service.
- `MessageService`: `MessageService`, the message service.

External effects are parameters of the model:

- `JSON.parse` is a `Parser` function.
- `fetch` is a server function from request to response. The response body
  is the sequence of decoded reads, plus whether the last read was rejected.
- The AI service is the provider's reply as a function of the context.

Decoding and turn semantics:

- The live remote decoder is specified against a reference decoding of the
  concatenated body. It decodes the complete lines, in order, up to
  `[DONE]`. The unterminated tail is dropped.
- The collecting remote decoder and the local stream decoder split each read
  on its own. A line cut across two reads is therefore lost. The model proves
  this for both (`Ai4lifeProvider.CollectSplitLineLost`,
  `LocalProvider.SplitLineLost`).
- In the collector, `[DONE]` ends only the read it appears in. The `break`
  leaves the line loop, not the read loop.
- When the provider fails, the user message is already saved and stays
  saved. A failed provider call could be expected to leave nothing behind,
  but the code saves the user message before it calls the provider, and the
  model follows the code.
- The context budget is `maxTokens * 0.7`, passed unrounded, as in the code.
  It is not rounded down to a whole number of tokens first. For whole token
  counts the two tests agree.

## Model

| member | source | states |
|---|---|---|
| ChatTypes.CountTokens | src/modules/chat/services/ai4life-ai.provider.ts:265-269 | the estimate n is ceil(length/4): 4n covers the length and exceeds it by less than 4 |
| ChatTypes.CountTokensEmpty | src/modules/chat/services/local-ai.provider.ts:148-152 | the empty text counts 0 tokens |
| ChatTypes.CountTokensMonotone | src/modules/chat/services/local-ai.provider.ts:148-152 | appending text never lowers the estimate |
| ChatTypes.CountTokensByLength | src/modules/chat/services/ai4life-ai.provider.ts:265-269 | the estimate depends only on the length |
| ChatTypes.CountTokensHelloWorld | src/modules/chat/services/ai4life-ai.provider.ts:265-269 | "HelloWorld" (10 characters) is 3 tokens |
| ChatTypes.Member | src/modules/chat/services/ai4life-ai.provider.ts:89 | a property read is present exactly when the value is an object holding the key, and is that key's value |
| ChatTypes.Truthy | src/modules/chat/services/ai4life-ai.provider.ts:89 | reference definition: JavaScript truthiness of a parsed value, as tested by `if (data.text)` here and at line 185, and by `data.message?.content || ""` and `if (data.message?.content)` at local-ai.provider.ts:64 and :122 |
| ChatTypes.ConcatAppend | src/modules/chat/services/message.service.ts:126-130 | accumulating two runs of pieces is accumulating each in turn |
| ChatTypes.ConcatLength | src/modules/chat/services/message.service.ts:126-130 | the accumulated text is as long as all the pieces together |
| ChatTypes.FlatMapAppend | src/modules/chat/services/local-ai.provider.ts:110-130 | the output of two runs of reads is the output of each run, in order |
| JsStrings.IsTrimmable | src/modules/chat/services/ai4life-ai.provider.ts:77 | reference definition: the characters `trim()` removes here and at line 171, ECMAScript white space and line terminators |
| JsStrings.TrimStart | src/modules/chat/services/ai4life-ai.provider.ts:171 | the result is a suffix that starts with a non-whitespace character, and everything cut off is whitespace |
| JsStrings.TrimEnd | src/modules/chat/services/ai4life-ai.provider.ts:171 | the result is a prefix that ends with a non-whitespace character, and everything cut off is whitespace |
| JsStrings.Trim | src/modules/chat/services/ai4life-ai.provider.ts:171 | reference definition: `trim()` removes leading and then trailing whitespace |
| JsStrings.TrimEmptyIff | src/modules/chat/services/ai4life-ai.provider.ts:171-174 | a line trims to empty exactly when all its characters are whitespace |
| JsStrings.StartsWith | src/modules/chat/services/ai4life-ai.provider.ts:180 | reference definition: the text begins with the prefix |
| JsStrings.Split | src/modules/chat/services/ai4life-ai.provider.ts:165 | `split("\n")` always gives at least one piece |
| JsStrings.SplitPiecesHaveNoNewline | src/modules/chat/services/ai4life-ai.provider.ts:165 | no piece of `split("\n")` contains a newline |
| JsStrings.SplitJoin | src/modules/chat/services/ai4life-ai.provider.ts:165 | joining the pieces with newlines gives back the text |
| JsStrings.SplitIsCompleteLinesAndRest | src/modules/chat/services/ai4life-ai.provider.ts:165-168 | the pieces are the complete lines followed by the unterminated tail that `pop()` keeps |
| JsStrings.CompleteLines | src/modules/chat/services/ai4life-ai.provider.ts:164-168 | reference definition: the pieces of `split("\n")` left in `lines` after `pop()` |
| JsStrings.Rest | src/modules/chat/services/ai4life-ai.provider.ts:165-168 | reference definition: `buffer = lines.pop() || ""`, the text after the last newline |
| JsStrings.SplitAppend | src/modules/chat/services/ai4life-ai.provider.ts:164-168 | splitting more text extends the complete lines of the first part with the split of its tail plus the new text |
| JsStrings.CompleteLinesAppend | src/modules/chat/services/ai4life-ai.provider.ts:164-168 | the carry-over buffer plus the next read gives exactly the new complete lines, and the new buffer is the tail of the whole |
| JsStrings.SplitNoNewline | src/modules/chat/services/ai4life-ai.provider.ts:165 | a text without a newline splits into itself alone |
| JsStrings.LineThenRest | src/modules/chat/services/ai4life-ai.provider.ts:165 | a line followed by a newline is the first piece, and the rest splits on its own |
| JsStrings.IndexOf | src/modules/chat/services/ai4life-ai.provider.ts:251 | the result is the first occurrence at or after the start, and none is reported only when there is none |
| JsStrings.ReplaceFirst | src/modules/chat/services/ai4life-ai.provider.ts:251 | replacing an occurring pattern shortens the text by its length, and a missing pattern leaves the text alone; `JsStrings.ReplaceFirstAtFirst` places the deletion at the first occurrence |
| JsStrings.ReplaceFirstAtFirst | src/modules/chat/services/ai4life-ai.provider.ts:251 | the deletion happens at the first occurrence of the pattern, wherever it is |
| JsStrings.FirstOccurrence | src/modules/chat/services/ai4life-ai.provider.ts:251 | with no earlier occurrence, the replacement deletes exactly the characters at that position |
| JsStrings.ReplaceFirstKeepsTail | src/modules/chat/services/ai4life-ai.provider.ts:251 | deleting at the first occurrence keeps everything after that occurrence |
| CitationParsing.NextBrace | src/modules/chat/services/ai4life-ai.provider.ts:237 | the first brace at or after the start, with no brace before it |
| CitationParsing.CandidateAt | src/modules/chat/services/ai4life-ai.provider.ts:237 | reference definition: the regular expression matches at a position: a `{`, then no brace up to a `}`, with the marker between |
| CitationParsing.CandidateEnd | src/modules/chat/services/ai4life-ai.provider.ts:237 | a match ends at its closing brace and holds no brace inside |
| CitationParsing.MatchesFrom | src/modules/chat/services/ai4life-ai.provider.ts:237-241 | the global matches are candidates, in order, and do not overlap |
| CitationParsing.TextsOf | src/modules/chat/services/ai4life-ai.provider.ts:243 | `match[0]` is the text of each matched span |
| CitationParsing.MatchTexts | src/modules/chat/services/ai4life-ai.provider.ts:239-243 | reference definition: `match[0]` of each match of `text.matchAll(citationRegex)`, in order |
| CitationParsing.EveryCandidateIsMatched | src/modules/chat/services/ai4life-ai.provider.ts:237-241 | every position where the pattern matches is the start of a reported match |
| CitationParsing.MatchesAreCandidates | src/modules/chat/services/ai4life-ai.provider.ts:237-241 | a position starts a reported match exactly when the pattern matches there |
| CitationParsing.Accept | src/modules/chat/services/ai4life-ai.provider.ts:242-256 | a match is kept exactly when it parses to an object holding both `start_char` and `end_char`, with those members as the citation |
| CitationParsing.ExtractFrom | src/modules/chat/services/ai4life-ai.provider.ts:241-257 | reference definition: the match loop, pushing each accepted match and deleting its first occurrence from the text |
| CitationParsing.Separate | src/modules/chat/services/ai4life-ai.provider.ts:228-263 | reference definition: the loop run over the global matches of the original text |
| CitationParsing.ExtractFromCitations | src/modules/chat/services/ai4life-ai.provider.ts:241-257 | the loop pushes exactly the accepted matches, in match order |
| CitationParsing.SeparateCitations | src/modules/chat/services/ai4life-ai.provider.ts:228-263 | the extracted citations are the accepted matches of the text, in order |
| CitationParsing.ExtractFromStep | src/modules/chat/services/ai4life-ai.provider.ts:242-256 | an accepted match is removed and pushed, and a rejected one changes nothing |
| CitationParsing.RemoveBeforeRest | src/modules/chat/services/ai4life-ai.provider.ts:251 | removing a match from a text keeps what follows the match |
| CitationParsing.ExtractFromLength | src/modules/chat/services/ai4life-ai.provider.ts:241-257 | each accepted match removes exactly its own length from the text |
| CitationParsing.SeparateLength | src/modules/chat/services/ai4life-ai.provider.ts:228-263 | the cleaned text is shorter than the input by the total length of the accepted citations |
| CitationParsing.NothingAcceptedKeepsText | src/modules/chat/services/ai4life-ai.provider.ts:241-257 | with no match accepted, the text and the citations are left as they were |
| CitationParsing.AcceptedLengthPositive | src/modules/chat/services/ai4life-ai.provider.ts:241-257 | accepting any non-empty match removes some text |
| CitationParsing.UnchangedIffNoCitation | src/modules/chat/services/ai4life-ai.provider.ts:228-263 | the text comes back unchanged exactly when no citation is extracted |
| CitationParsing.NoOpenBraceNoMatch | src/modules/chat/services/ai4life-ai.provider.ts:237 | a stretch without `{` holds no match |
| CitationParsing.NextBraceIs | src/modules/chat/services/ai4life-ai.provider.ts:237 | the scan stops at the first brace |
| CitationParsing.SingleMatch | src/modules/chat/services/ai4life-ai.provider.ts:237-241 | a text with one braced object holding the marker has exactly that match |
| CitationParsing.SeparateSingle | src/modules/chat/services/ai4life-ai.provider.ts:228-263 | a single valid citation is cut out and returned, and an invalid one stays in the text |
| CitationParsing.SeparatePieces | src/modules/chat/services/ai4life-ai.provider.ts:228-263 | for text, citation object, text: the result is the two texts joined plus that citation, or the input unchanged when the object is not a citation |
| CitationParsing.SeparateExample | src/modules/chat/services/ai4life-ai.provider.ts:228-263 | "See {\"start_char\":…} here" gives "See  here" and one citation |
| CitationParsing.ParseTextAndCitations | src/modules/chat/services/ai4life-ai.provider.ts:228-263 | the loop over the matches computes the reference separation |
| Ai4lifeProvider.UserMessages | src/modules/chat/services/ai4life-ai.provider.ts:39 | the filter keeps only user messages of the conversation |
| Ai4lifeProvider.LastUserMessage | src/modules/chat/services/ai4life-ai.provider.ts:39-42 | reference definition: `pop()` of the filtered user messages, or none |
| Ai4lifeProvider.UserMessagesOfAppend | src/modules/chat/services/ai4life-ai.provider.ts:39 | filtering distributes over concatenation |
| Ai4lifeProvider.LastUserIndex | src/modules/chat/services/ai4life-ai.provider.ts:39-42 | the last user position: no later message is a user message, and there is none exactly when no message is |
| Ai4lifeProvider.LastUserMessageIsLast | src/modules/chat/services/ai4life-ai.provider.ts:126-129 | filter-then-pop is the message at the last user position, or none |
| Ai4lifeProvider.EventText | src/modules/chat/services/ai4life-ai.provider.ts:183-185 | a payload yields a delta exactly when it parses to a value whose `text` is a non-empty string, and the delta is that string |
| Ai4lifeProvider.CitationChunks | src/modules/chat/services/ai4life-ai.provider.ts:195-197 | one empty-text chunk per citation, in order |
| Ai4lifeProvider.DeltaChunks | src/modules/chat/services/ai4life-ai.provider.ts:185-197 | reference definition: a delta yields its cleaned text when non-empty, then one chunk per citation |
| Ai4lifeProvider.SseStep | src/modules/chat/services/ai4life-ai.provider.ts:171-204 | reference definition: one trimmed line is skipped when blank, not `data: ` or without a text delta; `[DONE]` stops; otherwise the delta's chunks are emitted |
| Ai4lifeProvider.SseLines | src/modules/chat/services/ai4life-ai.provider.ts:170-205 | reference definition: the chunks of a run of lines, in order, up to `[DONE]`, and whether `[DONE]` was reached |
| Ai4lifeProvider.SseOutput | src/modules/chat/services/ai4life-ai.provider.ts:154-211 | reference definition: the complete lines of the whole body, decoded; the unterminated tail is dropped |
| Ai4lifeProvider.SseLinesAppend | src/modules/chat/services/ai4life-ai.provider.ts:170-205 | two runs of lines decode as the first, then the second unless `[DONE]` stopped the first |
| Ai4lifeProvider.NothingAfterDone | src/modules/chat/services/ai4life-ai.provider.ts:176-178 | nothing after `[DONE]` is decoded |
| Ai4lifeProvider.PartialLineIgnored | src/modules/chat/services/ai4life-ai.provider.ts:165-168 | text with no newline yields nothing, because an unterminated line is never processed |
| Ai4lifeProvider.MalformedLineSkipped | src/modules/chat/services/ai4life-ai.provider.ts:180-203 | a `data:` line whose payload does not parse is skipped, and decoding goes on with the next line |
| Ai4lifeProvider.DoneLineParts | src/modules/chat/services/ai4life-ai.provider.ts:176 | the terminator is the event prefix followed by `[DONE]` |
| Ai4lifeProvider.ReadStep | src/modules/chat/services/ai4life-ai.provider.ts:158-168 | one more read completes the lines of the buffer plus that read, and leaves their tail as the buffer |
| Ai4lifeProvider.ReadDecoded | src/modules/chat/services/ai4life-ai.provider.ts:158-205 | the decoding after one more read extends the decoding before it by that read's lines |
| Ai4lifeProvider.SseLinesStep | src/modules/chat/services/ai4life-ai.provider.ts:170-205 | decoding from a line on is skipping, stopping or emitting at that line, then the rest |
| Ai4lifeProvider.DecodeLines | src/modules/chat/services/ai4life-ai.provider.ts:170-205 | the line loop yields the reference decoding of its lines and reports whether `[DONE]` was reached |
| Ai4lifeProvider.StreamBody | src/modules/chat/services/ai4life-ai.provider.ts:154-211 | the live generator yields the reference decoding of the whole body, and fails exactly when a read is rejected before `[DONE]` |
| Ai4lifeProvider.NothingRead | src/modules/chat/services/ai4life-ai.provider.ts:156 | the buffer starts empty with nothing decoded |
| Ai4lifeProvider.StopEndsOutput | src/modules/chat/services/ai4life-ai.provider.ts:176-178 | once the reads so far reach `[DONE]`, the later reads change nothing |
| Ai4lifeProvider.Join | src/modules/chat/services/ai4life-ai.provider.ts:91-92 | appending two partial results adds their lengths |
| Ai4lifeProvider.JoinAssociative | src/modules/chat/services/ai4life-ai.provider.ts:91-92 | accumulating content and citations is associative |
| Ai4lifeProvider.JoinNoText | src/modules/chat/services/ai4life-ai.provider.ts:91-92 | an empty contribution leaves the accumulation alone |
| Ai4lifeProvider.NonBlank | src/modules/chat/services/ai4life-ai.provider.ts:77 | reference definition: `filter(line => line.trim())` keeps the lines that are not blank |
| Ai4lifeProvider.CollectLine | src/modules/chat/services/ai4life-ai.provider.ts:84-99 | reference definition: an untrimmed `data: ` line with a text delta adds the delta's cleaned text and citations; any other line adds nothing |
| Ai4lifeProvider.CollectLines | src/modules/chat/services/ai4life-ai.provider.ts:79-100 | reference definition: the lines of one read, up to a line that is exactly `data: [DONE]` |
| Ai4lifeProvider.CollectRead | src/modules/chat/services/ai4life-ai.provider.ts:76-100 | reference definition: one read, split and filtered on its own |
| Ai4lifeProvider.CollectReads | src/modules/chat/services/ai4life-ai.provider.ts:70-101 | reference definition: every read in order, each collected independently |
| Ai4lifeProvider.CollectReadsStep | src/modules/chat/services/ai4life-ai.provider.ts:70-101 | one more read joins its lines to what the earlier reads collected |
| Ai4lifeProvider.CollectLinesLoop | src/modules/chat/services/ai4life-ai.provider.ts:79-100 | the line loop of one read adds that read's text and citations, up to an exact `data: [DONE]` line |
| Ai4lifeProvider.CollectBody | src/modules/chat/services/ai4life-ai.provider.ts:58-113 | the collector returns the text and citations of every read with the text's token estimate, or fails on a rejected read |
| Ai4lifeProvider.TrimDone | src/modules/chat/services/ai4life-ai.provider.ts:176 | the terminator trims to itself |
| Ai4lifeProvider.DoneRead | src/modules/chat/services/ai4life-ai.provider.ts:80-82 | a read that opens with `[DONE]` contributes nothing |
| Ai4lifeProvider.DoneEndsOnlyItsRead | src/modules/chat/services/ai4life-ai.provider.ts:79-82 | after `[DONE]` in one read, the next read is still collected |
| Ai4lifeProvider.SingleLineCollected | src/modules/chat/services/ai4life-ai.provider.ts:76-100 | a read holding one unterminated line collects that line alone, unless it is blank or `[DONE]` |
| Ai4lifeProvider.CollectSplitLineLost | src/modules/chat/services/ai4life-ai.provider.ts:76-100 | a line cut across two reads is lost when neither half collects anything, though the whole line read at once is collected |
| Ai4lifeProvider.DataLineCollected | src/modules/chat/services/ai4life-ai.provider.ts:84-93 | a `data: ` line is collected as its payload's delta with the citations separated |
| Ai4lifeProvider.SplitHalvesCollectNothing | src/modules/chat/services/ai4life-ai.provider.ts:84-99 | `data: {"te` fails to parse and `xt":"Hi"}` lacks the prefix, so neither half collects anything |
| Ai4lifeProvider.SplitWholeIsLine | src/modules/chat/services/ai4life-ai.provider.ts:77-80 | the joined halves are one non-blank line other than `[DONE]` |
| Ai4lifeProvider.SplitWholeCollected | src/modules/chat/services/ai4life-ai.provider.ts:84-93 | the whole line `data: {"text":"Hi"}` is collected as the delta "Hi" |
| Ai4lifeProvider.CollectSplitExample | src/modules/chat/services/ai4life-ai.provider.ts:70-101 | `data: {"text":"Hi"}` cut after `te` collects nothing, while the whole line yields "Hi" |
| Ai4lifeProvider.DoneEndsLiveStream | src/modules/chat/services/ai4life-ai.provider.ts:176-178 | in the live stream the same `[DONE]` ends everything, whatever follows it |
| Ai4lifeProvider.GenerateResponse | src/modules/chat/services/ai4life-ai.provider.ts:23-222 | no user message, a non-ok status and a missing reader are errors; otherwise the result is the collected reply or the live stream with a total of 0 |
| LocalProvider.WithSystemPrompt | src/modules/chat/services/local-ai.provider.ts:27-31 | the system prompt comes first, then every message in its order |
| LocalProvider.SystemPromptKeepsQuestion | src/modules/chat/services/local-ai.provider.ts:27-31 | the prompt adds no user turn: the last user message stays the same |
| LocalProvider.ContentOf | src/modules/chat/services/local-ai.provider.ts:64 | reference definition: `data.message?.content`, present when both members exist |
| LocalProvider.ResponseContent | src/modules/chat/services/local-ai.provider.ts:63-64 | a string at `message.content` is the content; `null` fails as unsupported; a reply missing `message` or `content`, or with a falsy `content` (`null`, `false`, `0`), has empty content; a truthy non-string `content` fails |
| LocalProvider.CompleteReply | src/modules/chat/services/local-ai.provider.ts:40-76 | a response without a body fails as invalid JSON; a rejected read fails; a body that is not JSON fails as invalid; otherwise the reply is the extracted content with its token estimate and no citations, or the extraction's error |
| LocalProvider.StringContentReplied | src/modules/chat/services/local-ai.provider.ts:63-70 | `{"message": {"content": c}}` is replied as c with its token estimate |
| LocalProvider.UnusableReplyFails | src/modules/chat/services/local-ai.provider.ts:63-64 | a `null` reply or a body that is not JSON fails the call |
| LocalProvider.MissingMessageIsEmpty | src/modules/chat/services/local-ai.provider.ts:64-65 | `data.message?.content || ""` gives empty content and 0 tokens when `message` is absent |
| LocalProvider.LineText | src/modules/chat/services/local-ai.provider.ts:120-124 | a line yields text exactly when it parses and its `message.content` is a non-empty string, and the text is that string |
| LocalProvider.LineChunk | src/modules/chat/services/local-ai.provider.ts:121-124 | reference definition: a line yields one chunk holding its content, or nothing |
| LocalProvider.LinesOutput | src/modules/chat/services/local-ai.provider.ts:119-129 | reference definition: the chunks of the lines of one read, in order |
| LocalProvider.LinesOutputStep | src/modules/chat/services/local-ai.provider.ts:119-129 | one more line moves its chunk from the remaining lines to the output |
| LocalProvider.ReadOutput | src/modules/chat/services/local-ai.provider.ts:116-129 | reference definition: one read, split and filtered on its own |
| LocalProvider.ReadsOutput | src/modules/chat/services/local-ai.provider.ts:110-130 | reference definition: every read in order, with nothing carried between reads |
| LocalProvider.ReadsOutputAppend | src/modules/chat/services/local-ai.provider.ts:110-130 | reads decode independently: a run of reads decodes as its parts |
| LocalProvider.SingleLineRead | src/modules/chat/services/local-ai.provider.ts:116-129 | a read holding one line yields one chunk carrying that line's `message.content`, when it is a non-empty string, and nothing otherwise |
| LocalProvider.SplitLineLost | src/modules/chat/services/local-ai.provider.ts:116-129 | a line cut between two reads is lost, though read whole it yields one chunk carrying its `message.content` |
| LocalProvider.ReadLinesLoop | src/modules/chat/services/local-ai.provider.ts:119-129 | the line loop appends the content of each line in order |
| LocalProvider.StreamBody | src/modules/chat/services/local-ai.provider.ts:108-135 | the generator yields the output of every read in order, and fails when a read is rejected |
| LocalProvider.GenerateResponse | src/modules/chat/services/local-ai.provider.ts:23-146 | the prompt and the conversation are posted; a non-ok status, a missing reader or a bad reply is an error; otherwise the reply or the stream with a total of 0 |
| ChatStore.OfConversation | src/modules/chat/repositories/message.repository.ts:11-22 | a conversation's history holds only that conversation's messages, no more than are stored |
| ChatStore.OfConversationAppend | src/modules/chat/repositories/message.repository.ts:11-22 | a new message joins the end of its own conversation's history only |
| ChatStore.NoHistory | src/modules/chat/repositories/message.repository.ts:11-22 | a conversation no message refers to has no history |
| ChatStore.TokenSum | src/modules/chat/repositories/message.repository.ts:72-79 | reference definition: `SUM(tokenCount)` of the rows, 0 when there are none |
| ChatStore.TokenSumAppend | src/modules/chat/repositories/message.repository.ts:72-79 | the summed token counts add up over concatenation |
| ChatStore.Store.constructor | src/modules/chat/repositories/message.repository.ts:7-9 | an empty store with no writes |
| ChatStore.Store.FindActive | src/modules/chat/repositories/conversation.repository.ts:38-48 | a conversation is found exactly when it exists, is the user's and is not soft-deleted |
| ChatStore.Store.History | src/modules/chat/repositories/message.repository.ts:11-22 | reference definition: the conversation's messages, oldest first |
| ChatStore.Store.TotalTokens | src/modules/chat/repositories/message.repository.ts:72-79 | reference definition: the summed token counts of the conversation's messages |
| ChatStore.Store.SaveConversation | src/modules/chat/services/chat.service.ts:20-27 | a new row gets a fresh id; nothing else changes, and the write is journalled |
| ChatStore.Store.SaveMessage | src/modules/chat/services/message.service.ts:32-39 | a new message with a fresh id goes at the end of the messages, and the write is journalled |
| ChatStore.Store.SetTotal | src/modules/chat/services/chat.service.ts:91 | only the total of that conversation changes, when there is one |
| ChatStore.Store.SoftDelete | src/modules/chat/repositories/conversation.repository.ts:50-52 | only the user's row is marked deleted |
| ChatService.TitleOrDefault | src/modules/chat/services/chat.service.ts:22 | a missing or empty title becomes "New Conversation", and any other is kept |
| ChatService.CreateConversation | src/modules/chat/services/chat.service.ts:16-28 | a new conversation for the user, with that title, 0 tokens and a budget of 4000, added to the store and nothing else changed |
| ChatService.GetConversationById | src/modules/chat/services/chat.service.ts:49-60 | found exactly when it exists, is the user's and is not deleted; otherwise "Conversation not found" |
| ChatService.DeleteConversation | src/modules/chat/services/chat.service.ts:62-73 | not found writes nothing; otherwise only that row is soft-deleted, no id is spent, and afterwards it is no longer found |
| ChatService.GetConversationMessages | src/modules/chat/services/chat.service.ts:75-85 | the same not-found guard, then the conversation with its whole history |
| ChatService.PageCount | src/modules/chat/services/chat.service.ts:44 | `Math.ceil(total / limit)`: the fewest pages of that size that hold the items; none for a zero limit |
| ChatService.PageCountExamples | src/modules/chat/services/chat.service.ts:44 | 0, 25 and 30 items in pages of 10 give 0, 3 and 3 pages |
| ChatService.Paginate | src/modules/chat/services/chat.service.ts:38-46 | the block echoes the page, uses the limit as the page size, and reports the total and the page count |
| ChatService.GetConversations | src/modules/chat/services/chat.service.ts:30-47 | the query's items with that pagination block |
| ChatService.Recomputed | src/modules/chat/services/chat.service.ts:87-92 | reference definition: the conversation's total is replaced by the sum of its messages' counts, when it exists |
| ChatService.RecomputedTotal | src/modules/chat/services/chat.service.ts:87-92 | the total becomes the stored sum, and every other conversation is kept |
| ChatService.RecomputeIdempotent | src/modules/chat/services/chat.service.ts:87-92 | recomputing twice is recomputing once |
| ChatService.RecomputeIgnoresOldTotal | src/modules/chat/services/chat.service.ts:87-92 | the previous total has no influence, so a missed update is repaired by the next one |
| ChatService.RecomputeAfterSave | src/modules/chat/services/chat.service.ts:87-92 | after one more message the total grows by exactly its count |
| ChatService.UpdateConversationTokens | src/modules/chat/services/chat.service.ts:87-92 | the conversation's total is set to the sum of its messages' counts, and the update is journalled |
| ChatService.Project | src/modules/chat/services/chat.service.ts:114-117 | each context entry is the role and content of the matching message |
| ChatService.Fits | src/modules/chat/services/chat.service.ts:111 | reference definition: a run of messages fits when 10 times its token sum is within the limit in tenths (`7 * maxTokens` for `maxTokens * 0.7`) |
| ChatService.FirstFit | src/modules/chat/services/chat.service.ts:109-119 | the start of the kept suffix lies within the history |
| ChatService.FirstFitIsLongest | src/modules/chat/services/chat.service.ts:109-119 | the kept suffix fits the budget, and one more message would not |
| ChatService.SuffixSumMonotone | src/modules/chat/services/chat.service.ts:109-119 | a longer suffix holds at least as many tokens |
| ChatService.FirstFitUnique | src/modules/chat/services/chat.service.ts:109-119 | the longest fitting suffix is the only start with those two properties |
| ChatService.GetRecentMessagesForContext | src/modules/chat/services/chat.service.ts:94-122 | the context is the longest suffix of the history that fits the budget, oldest first |
| ChatService.NewestTooLargeGivesEmpty | src/modules/chat/services/chat.service.ts:111-113 | when the newest message alone is over budget, the context is empty |
| ChatService.ContextExample | src/modules/chat/services/chat.service.ts:109-119 | counts 100, 2000 and 1000 against 4000 * 0.7 keep only the newest message |
| MessageService.TitleFor | src/modules/chat/services/message.service.ts:188 | a message over 100 characters becomes its first 97 plus "...", exactly 100; a shorter one is kept |
| MessageService.TitleIdempotent | src/modules/chat/services/message.service.ts:188 | a title is at most 100 characters and is its own title |
| MessageService.UserRow | src/modules/chat/services/message.service.ts:31-37 | the user's row carries the content and its token estimate |
| MessageService.ContextFor | src/modules/chat/services/message.service.ts:42-45 | reference definition: the longest fitting suffix of the history, against `maxTokens * 0.7` |
| MessageService.QuestionEndsContext | src/modules/chat/services/message.service.ts:39-45 | the message just saved ends the context when it fits the budget, and the context is empty when it does not |
| MessageService.QuestionIsAsked | src/modules/chat/services/message.service.ts:42-51 | a context ending in the user's message makes it the remote provider's question |
| MessageService.AskQuestion | src/modules/chat/services/message.service.ts:31-45 | the user message is saved before the context is read, so the context comes from the history ending with it |
| MessageService.SaveReply | src/modules/chat/services/message.service.ts:53-64 | the reply is saved, then the total is recomputed, in that order |
| MessageService.SendMessage | src/modules/chat/services/message.service.ts:19-70 | not found writes nothing; a provider failure leaves only the user message written; otherwise user message, reply and total update, in that order; one id is spent per message saved |
| MessageService.SendMessageStreaming | src/modules/chat/services/message.service.ts:72-118 | not found writes nothing; otherwise only the user message is written, and the unread stream is handed out |
| MessageService.FirstTitle | src/modules/chat/services/message.service.ts:188-189 | the conversation is titled after the truncated message, and an empty message falls back to "New Conversation" |
| MessageService.StartConversation | src/modules/chat/services/message.service.ts:188-189 | the new conversation has that title, the default budget and no messages |
| MessageService.FirstContext | src/modules/chat/services/message.service.ts:202-205 | reference definition: the first turn's context, the message itself when it fits `maxTokens * 0.7` of the default budget |
| MessageService.FreshContext | src/modules/chat/services/message.service.ts:201-205 | a new conversation's context is its first message, or empty when that alone is over budget |
| MessageService.AskFirstQuestion | src/modules/chat/services/message.service.ts:191-205 | the first message is saved, and the context is that message alone when it fits |
| MessageService.FreshTotal | src/modules/chat/services/message.service.ts:221-222 | after one exchange the new conversation totals the two messages' counts |
| MessageService.FreshRecompute | src/modules/chat/services/message.service.ts:221-222 | recomputing a conversation just stored replaces only its total |
| MessageService.SendFirstMessage | src/modules/chat/services/message.service.ts:179-229 | writes, in order: the conversation, the user message, the reply and a total of both counts; a provider failure stops after the user message; one id is spent per row created |
| MessageService.SendFirstMessageStreaming | src/modules/chat/services/message.service.ts:235-273 | writes, in order, the titled conversation and the user message, and hands out the unread stream |
| MessageService.ChunkTexts | src/modules/chat/services/message.service.ts:127 | each forwarded text is the text of the matching chunk |
| MessageService.ChunkTextsAppend | src/modules/chat/services/message.service.ts:126-130 | forwarding two runs of chunks forwards each |
| MessageService.StreamedContent | src/modules/chat/services/message.service.ts:124-130 | reference definition: the concatenation of every chunk's text |
| MessageService.StreamedContentAppend | src/modules/chat/services/message.service.ts:126-130 | the saved content of two runs is the content of each, in order |
| MessageService.HelloWorldStream | src/modules/chat/services/message.service.ts:126-141 | chunks "Hello" and "World" are saved as "HelloWorld", 3 tokens |
| MessageService.CitationsAddNothing | src/modules/chat/services/message.service.ts:127-128 | citation chunks add nothing to the saved content |
| MessageService.DeltaContent | src/modules/chat/services/message.service.ts:126-130 | one remote event adds its text with the citations cut out |
| MessageService.Forward | src/modules/chat/services/message.service.ts:126-130 | every chunk's text is forwarded in order, and the accumulation is their concatenation |
| MessageService.WrapStreamWithSave | src/modules/chat/services/message.service.ts:120-143 | forwards every text; once the stream is exhausted, saves one reply whose content is the whole streamed text and whose count is at least a quarter of its length, spending one id, then recomputes the total; a failing stream saves nothing |
| MessageService.SavedIsStreamed | src/modules/chat/services/message.service.ts:132-141 | a reply saved from a stream has as token count the estimate of the yielded texts' total length: at least a quarter of it and less than a quarter plus one |
| MessageService.SearchMessages | src/modules/chat/services/message.service.ts:145-173 | the query's matches with the same pagination block as conversations |

## Left out

- `fetch`, the endpoint URLs and the configuration defaults are not modelled. Each provider takes the server as a function from the posted request to the response, so network failures, headers and the URL are not modelled.
- `TextDecoder` is not modelled: a read is already decoded text. Multi-byte characters split across reads are not modelled.
- String lengths count Dafny characters, not UTF-16 code units. The token estimate therefore differs from the code for characters outside the Basic Multilingual Plane.
- `JSON.parse` is a function parameter, and JSON numbers are integers. Numeric member values are never inspected, so floating point does not arise.
- `reader.releaseLock()`, cancelling a stream early and any concurrency between turns are not modelled. A stream is the whole sequence of chunks it would yield.
- The logger calls are left out. They write only to the log.
- The repository queries are reduced to what the services read: title search (ILIKE), date filters, `skip`/`take` and ordering belong to the repositories. `GetConversations` and `SearchMessages` take the returned page and total as inputs.
- A failing database write is not modelled. Every save succeeds.
- The AI service only delegates to the configured provider. `SendMessage` and its relatives take the provider's reply as a function of the context.
- The local provider's system-prompt text is a configuration parameter; its wording is not modelled.
- LocalProvider.ResponseContent: a truthy content that is not a string (a number, an array, an object) is reported as an error rather than passed on. The code would store such a value as the content.
- LocalProvider.LineText: a truthy non-string content in a stream line is skipped. The code would yield it as a chunk whose text is not a string.
- ChatService.Fits: `maxTokens * 0.7` is compared exactly, as `10 * sum > 7 * maxTokens`. The rounding of the floating-point product is not modelled.
- ChatStore.Store.History: messages are kept in the order they were saved, and that order stands for `ORDER BY createdAt DESC` followed by `reverse()`. There are no timestamps, so messages with equal `createdAt` and a clock that goes backwards are not modelled.
- ChatStore.OfConversation: the contract states that the history holds only the conversation's messages. It does not state that each of them is among the stored messages.
- CitationParsing.SeparateLength: the cleaned text is stated by its length and by the exact result on one citation or none. A first-occurrence `replace` can delete an occurrence created by an earlier deletion, so "the input with the accepted spans deleted" is not claimed for every input.
- The chat controller, the DTO validation and the entity decorators are not part of this model.
