/**
 * The conversation service: creating, finding, listing and soft-deleting a
 * user's conversations, recomputing a conversation's token total from its
 * messages, and assembling the most recent messages that fit a token budget
 * as the context of the next provider call.
 */
module ChatService {

  import opened ChatTypes
  import opened ChatStore

  const DefaultTitle: string := "New Conversation"
  const DefaultMaxTokens: nat := 4000
  const NotFoundMessage: string := "Conversation not found"

  // ---------------------------------------------------------------------------
  // Creation, lookup and deletion
  // ---------------------------------------------------------------------------

  /** `dto.title || "New Conversation"`: an absent or empty title falls back to the default. */
  function TitleOrDefault(title: Option<string>): (t: string)
    ensures t != ""
    ensures title.Some? && title.value != "" ==> t == title.value
    ensures title.None? || title.value == "" ==> t == DefaultTitle
  {
    if title.Some? && title.value != "" then title.value else DefaultTitle
  }

  /** `createConversation`: a fresh conversation with no tokens and a budget of 4000. */
  method CreateConversation(store: Store, userId: string, title: Option<string>) returns (c: Conversation)
    requires store.Valid()
    modifies store
    ensures store.Valid()
    ensures c.userId == userId && c.title == TitleOrDefault(title)
    ensures c.totalTokens == 0 && c.maxTokens == DefaultMaxTokens && !c.deleted
    ensures c.id == old(store.nextId) && store.nextId == c.id + 1
    ensures c.id !in old(store.conversations)
    ensures store.conversations == old(store.conversations)[c.id := c]
    ensures store.messages == old(store.messages)
    ensures store.journal == old(store.journal) + [SavedConversation(c.id)]
  {
    c := store.SaveConversation(userId, TitleOrDefault(title), 0, DefaultMaxTokens);
  }

  /** `getConversationById`: the user's live conversation, or not found. */
  function GetConversationById(store: Store, id: nat, userId: string): (r: Result<Conversation>)
    reads store
    ensures r.Ok? <==> id in store.conversations && store.conversations[id].userId == userId
                       && !store.conversations[id].deleted
    ensures r.Ok? ==> r.value == store.conversations[id]
    ensures r.Err? ==> r.error == NotFound(NotFoundMessage)
  {
    match store.FindActive(id, userId)
    case Some(c) => Ok(c)
    case None => Err(NotFound(NotFoundMessage))
  }

  /** `deleteConversation`: the same check, then a soft delete; nothing is written when it fails. */
  method DeleteConversation(store: Store, id: nat, userId: string) returns (r: Result<()>)
    requires store.Valid()
    modifies store
    ensures store.Valid()
    ensures old(GetConversationById(store, id, userId)).Err? ==>
      r == Err(NotFound(NotFoundMessage)) && unchanged(store)
    ensures old(GetConversationById(store, id, userId)).Ok? ==>
      && r == Ok(())
      && store.conversations == old(store.conversations)[id := old(store.conversations)[id].(deleted := true)]
      && store.messages == old(store.messages) && store.nextId == old(store.nextId)
      && store.journal == old(store.journal) + [SoftDeleted(id)]
    ensures GetConversationById(store, id, userId).Err?
  {
    var found := GetConversationById(store, id, userId);
    if found.Err? {
      return Err(found.error);
    }
    store.SoftDelete(id, userId);
    r := Ok(());
  }

  datatype ConversationMessages = ConversationMessages(conversation: Conversation, messages: seq<Message>)

  /** `getConversationMessages`: the conversation after the same check, with its history. */
  function GetConversationMessages(store: Store, id: nat, userId: string): (r: Result<ConversationMessages>)
    reads store
    ensures r.Err? <==> GetConversationById(store, id, userId).Err?
    ensures r.Err? ==> r.error == NotFound(NotFoundMessage)
    ensures r.Ok? ==> r.value.conversation == store.conversations[id]
                      && r.value.messages == OfConversation(store.messages, id)
  {
    match GetConversationById(store, id, userId)
    case Err(e) => Err(e)
    case Ok(c) => Ok(ConversationMessages(c, store.History(id)))
  }

  // ---------------------------------------------------------------------------
  // Pagination
  // ---------------------------------------------------------------------------

  /**
   * `Math.ceil(total / limit)`; a zero limit gives `NaN` or `Infinity`,
   * modelled as no page count.
   */
  function PageCount(total: nat, limit: int): (p: Option<int>)
    ensures p.None? <==> limit == 0
    ensures limit > 0 ==> (p.value - 1) * limit < total <= p.value * limit
    ensures limit < 0 ==> p.value * limit <= total < (p.value - 1) * limit
  {
    if limit == 0 then None
    else if limit > 0 then
      var q := (total + limit - 1) / limit;
      assert q * limit <= total + limit - 1 < (q + 1) * limit;
      Some(q)
    else
      var q := total / (-limit);
      assert q * (-limit) <= total < (q + 1) * (-limit);
      Some(-q)
  }

  lemma PageCountExamples()
    ensures PageCount(0, 10) == Some(0)
    ensures PageCount(25, 10) == Some(3)
    ensures PageCount(30, 10) == Some(3)
    ensures PageCount(7, 0) == None
  {
  }

  datatype Pagination = Pagination(page: int, pageSize: int, totalItems: nat, totalPages: Option<int>)

  /** The pagination block of a listing: the page echoed, the limit as page size. */
  function Paginate(page: int, limit: int, total: nat): (p: Pagination)
    ensures p.page == page && p.pageSize == limit && p.totalItems == total
    ensures p.totalPages == PageCount(total, limit)
  {
    Pagination(page, limit, total, PageCount(total, limit))
  }

  datatype Listing<T> = Listing(items: seq<T>, pagination: Pagination)

  /**
   * `getConversations`: the page of items and the total the query returned,
   * with the pagination block.
   */
  function GetConversations(items: seq<Conversation>, total: nat, page: int, limit: int): (r: Listing<Conversation>)
    ensures r.items == items && r.pagination == Paginate(page, limit, total)
  {
    Listing(items, Paginate(page, limit, total))
  }

  // ---------------------------------------------------------------------------
  // Token total
  // ---------------------------------------------------------------------------

  /** The conversations after setting one total to the sum of its messages' token counts. */
  function Recomputed(conversations: map<nat, Conversation>, messages: seq<Message>, id: nat): map<nat, Conversation> {
    if id in conversations
    then conversations[id := conversations[id].(totalTokens := TokenSum(OfConversation(messages, id)))]
    else conversations
  }

  /** The total becomes the stored sum; every other conversation is left as it was. */
  lemma RecomputedTotal(conversations: map<nat, Conversation>, messages: seq<Message>, id: nat)
    ensures Recomputed(conversations, messages, id).Keys == conversations.Keys
    ensures id in conversations ==>
      Recomputed(conversations, messages, id)[id]
      == conversations[id].(totalTokens := TokenSum(OfConversation(messages, id)))
    ensures forall other :: other in conversations && other != id ==>
      Recomputed(conversations, messages, id)[other] == conversations[other]
  {
  }

  /** Recomputing twice is recomputing once. */
  lemma RecomputeIdempotent(conversations: map<nat, Conversation>, messages: seq<Message>, id: nat)
    ensures Recomputed(Recomputed(conversations, messages, id), messages, id) == Recomputed(conversations, messages, id)
  {
    if id in conversations {
      var once := Recomputed(conversations, messages, id);
      assert once[id].(totalTokens := TokenSum(OfConversation(messages, id))) == once[id];
      assert once[id := once[id]] == once;
    }
  }

  /** A recompute, not an increment: the previous total has no influence. */
  lemma RecomputeIgnoresOldTotal(conversations: map<nat, Conversation>, messages: seq<Message>, id: nat, stale: nat)
    requires id in conversations
    ensures Recomputed(conversations[id := conversations[id].(totalTokens := stale)], messages, id)
            == Recomputed(conversations, messages, id)
  {
  }

  /** After one more message, the total grows by exactly that message's count. */
  lemma RecomputeAfterSave(messages: seq<Message>, m: Message)
    ensures TokenSum(OfConversation(messages + [m], m.conversationId))
            == TokenSum(OfConversation(messages, m.conversationId)) + m.tokenCount
  {
    OfConversationAppend(messages, m, m.conversationId);
    TokenSumAppend(OfConversation(messages, m.conversationId), [m]);
    assert TokenSum([m]) == m.tokenCount + TokenSum([m][1..]);
    assert [m][1..] == [];
  }

  /** `updateConversationTokens`. */
  method UpdateConversationTokens(store: Store, id: nat)
    requires store.Valid()
    modifies store
    ensures store.Valid()
    ensures store.conversations == Recomputed(old(store.conversations), old(store.messages), id)
    ensures store.messages == old(store.messages) && store.nextId == old(store.nextId)
    ensures store.journal == old(store.journal) + [UpdatedTotal(id, TokenSum(OfConversation(old(store.messages), id)))]
  {
    var totalTokens := store.TotalTokens(id);
    store.SetTotal(id, totalTokens);
  }

  // ---------------------------------------------------------------------------
  // Context assembly
  // ---------------------------------------------------------------------------

  /** What the provider sees of a message: its role and content. */
  function Project(messages: seq<Message>): (turns: seq<AiMessage>)
    ensures |turns| == |messages|
    ensures forall k :: 0 <= k < |turns| ==> turns[k] == AiMessage(messages[k].role, messages[k].content)
  {
    if messages == [] then [] else [AiMessage(messages[0].role, messages[0].content)] + Project(messages[1..])
  }

  /**
   * A run of messages fits a budget given in tenths of a token: callers pass
   * `7 * maxTokens` for `maxTokens * 0.7`.
   */
  predicate Fits(messages: seq<Message>, limit: int) {
    10 * TokenSum(messages) <= limit
  }

  /**
   * The start of the longest suffix of the history that fits, as the history
   * read oldest first: the whole history if it fits, else the longest suffix
   * of what follows its first message.
   */
  function FirstFit(history: seq<Message>, limit: int): (s: nat)
    ensures s <= |history|
  {
    if history == [] then 0
    else if Fits(history, limit) then 0
    else FirstFit(history[1..], limit) + 1
  }

  /** The suffix from `FirstFit` fits (or is empty), and one more message would not. */
  lemma {:induction false} FirstFitIsLongest(history: seq<Message>, limit: int)
    ensures var s := FirstFit(history, limit);
      && (s < |history| ==> Fits(history[s..], limit))
      && (s > 0 ==> !Fits(history[s - 1..], limit))
    decreases |history|
  {
    if history != [] && !Fits(history, limit) {
      var s' := FirstFit(history[1..], limit);
      FirstFitIsLongest(history[1..], limit);
      assert history[1..][s'..] == history[s' + 1..];
      assert s' > 0 ==> history[1..][s' - 1..] == history[s'..];
    }
  }

  /** Longer suffixes hold at least as many tokens. */
  lemma {:induction false} SuffixSumMonotone(history: seq<Message>, a: nat, b: nat)
    requires a <= b <= |history|
    ensures TokenSum(history[b..]) <= TokenSum(history[a..])
    decreases b - a
  {
    if a < b {
      assert history[a..][1..] == history[a + 1..];
      SuffixSumMonotone(history, a + 1, b);
    }
  }

  /** The start `FirstFit` describes is the only one. */
  lemma FirstFitUnique(history: seq<Message>, limit: int, s: nat)
    requires s <= |history|
    requires s < |history| ==> Fits(history[s..], limit)
    requires s > 0 ==> !Fits(history[s - 1..], limit)
    ensures FirstFit(history, limit) == s
  {
    var f := FirstFit(history, limit);
    FirstFitIsLongest(history, limit);
    if f < s {
      SuffixSumMonotone(history, f, s - 1);
    } else if s < f {
      SuffixSumMonotone(history, s, f - 1);
    }
  }

  /**
   * `getRecentMessagesForContext`: walk the history from the newest message
   * back, stop at the first message that would exceed the budget, and
   * put each message in front of those already taken.
   */
  method GetRecentMessagesForContext(store: Store, conversationId: nat, limit: int) returns (context: seq<AiMessage>)
    ensures context == Project(store.History(conversationId)[FirstFit(store.History(conversationId), limit)..])
  {
    var messages := store.History(conversationId);
    context := [];
    var currentTokens := 0;
    var i := |messages| - 1;
    while i >= 0
      invariant -1 <= i < |messages|
      invariant context == Project(messages[i + 1..])
      invariant currentTokens == TokenSum(messages[i + 1..])
      invariant i + 1 < |messages| ==> Fits(messages[i + 1..], limit)
    {
      var msg := messages[i];
      assert messages[i..][0] == msg && messages[i..][1..] == messages[i + 1..];
      if 10 * (currentTokens + msg.tokenCount) > limit {
        FirstFitUnique(messages, limit, i + 1);
        break;
      }
      context := [AiMessage(msg.role, msg.content)] + context;
      currentTokens := currentTokens + msg.tokenCount;
      i := i - 1;
    }
    if i < 0 {
      FirstFitUnique(messages, limit, 0);
    }
  }

  /** When the newest message alone is over the budget, the context is empty. */
  lemma NewestTooLargeGivesEmpty(history: seq<Message>, limit: int)
    requires history != [] && 10 * history[|history| - 1].tokenCount > limit
    ensures FirstFit(history, limit) == |history|
  {
    var n := |history| - 1;
    assert history[n..][1..] == [];
    assert TokenSum(history[n..]) == history[n].tokenCount;
    FirstFitUnique(history, limit, |history|);
  }

  /** Token counts 100, 2000, 1000 against `4000 * 0.7`: only the newest message is kept. */
  lemma ContextExample(history: seq<Message>)
    requires |history| == 3
    requires history[0].tokenCount == 100 && history[1].tokenCount == 2000 && history[2].tokenCount == 1000
    ensures FirstFit(history, 7 * DefaultMaxTokens) == 2
  {
    assert history[2..][1..] == [];
    assert TokenSum(history[2..]) == 1000;
    assert history[1..][1..] == history[2..];
    assert TokenSum(history[1..]) == 3000;
    FirstFitUnique(history, 7 * DefaultMaxTokens, 2);
  }
}
