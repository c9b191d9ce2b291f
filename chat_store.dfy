/**
 * The persistence the chat services rely on, as an in-memory store: the
 * conversations by id, the messages in creation order, and a journal of the
 * writes made, so that the order of a turn's writes can be stated.
 */
module ChatStore {

  import opened ChatTypes

  /** A conversation row; `deleted` stands for a set `deletedAt`. */
  datatype Conversation = Conversation(id: nat, userId: string, title: string,
                                       totalTokens: nat, maxTokens: nat, deleted: bool)

  /** A message row. */
  datatype Message = Message(id: nat, conversationId: nat, role: Role, content: string, tokenCount: nat)

  /** One write to the store. */
  datatype Write =
    | SavedConversation(id: nat)
    | SavedMessage(id: nat)
    | UpdatedTotal(conversationId: nat, total: nat)
    | SoftDeleted(id: nat)

  /** The messages of one conversation, oldest first. */
  function OfConversation(messages: seq<Message>, conversationId: nat): (history: seq<Message>)
    ensures |history| <= |messages|
    ensures forall k :: 0 <= k < |history| ==> history[k].conversationId == conversationId
  {
    if messages == [] then []
    else
      var init := OfConversation(messages[..|messages| - 1], conversationId);
      if messages[|messages| - 1].conversationId == conversationId then init + [messages[|messages| - 1]] else init
  }

  lemma OfConversationAppend(messages: seq<Message>, m: Message, conversationId: nat)
    ensures OfConversation(messages + [m], conversationId)
            == OfConversation(messages, conversationId) + (if m.conversationId == conversationId then [m] else [])
  {
    assert (messages + [m])[..|messages|] == messages;
  }

  /** A conversation no message refers to has an empty history. */
  lemma NoHistory(messages: seq<Message>, conversationId: nat)
    requires forall k :: 0 <= k < |messages| ==> messages[k].conversationId != conversationId
    ensures OfConversation(messages, conversationId) == []
  {
  }

  /** The summed token counts, `SUM(tokenCount)`, which is 0 for no rows. */
  function TokenSum(messages: seq<Message>): nat {
    if messages == [] then 0 else messages[0].tokenCount + TokenSum(messages[1..])
  }

  lemma {:induction false} TokenSumAppend(a: seq<Message>, b: seq<Message>)
    ensures TokenSum(a + b) == TokenSum(a) + TokenSum(b)
    decreases |a|
  {
    if a == [] {
      assert a + b == b;
    } else {
      assert (a + b)[1..] == a[1..] + b;
      TokenSumAppend(a[1..], b);
    }
  }

  class Store {
    var conversations: map<nat, Conversation>
    var messages: seq<Message>
    var nextId: nat
    var journal: seq<Write>

    /** Ids are handed out once: every stored row has an id below `nextId`. */
    ghost predicate Valid()
      reads this
    {
      && (forall id :: id in conversations ==> conversations[id].id == id && id < nextId)
      && (forall k :: 0 <= k < |messages| ==> messages[k].id < nextId && messages[k].conversationId < nextId)
    }

    constructor ()
      ensures Valid()
      ensures conversations == map[] && messages == [] && journal == []
    {
      conversations := map[];
      messages := [];
      nextId := 0;
      journal := [];
    }

    /** `findByIdAndUserId`: the user's conversation when it exists and is not soft-deleted. */
    function FindActive(id: nat, userId: string): (c: Option<Conversation>)
      reads this
      ensures c.Some? <==> id in conversations && conversations[id].userId == userId && !conversations[id].deleted
      ensures c.Some? ==> c.value == conversations[id]
    {
      if id in conversations && conversations[id].userId == userId && !conversations[id].deleted
      then Some(conversations[id]) else None
    }

    /** `findByConversationId`: the conversation's messages, oldest first. */
    function History(conversationId: nat): seq<Message>
      reads this
    {
      OfConversation(messages, conversationId)
    }

    /** `getTotalTokensByConversationId`. */
    function TotalTokens(conversationId: nat): nat
      reads this
    {
      TokenSum(History(conversationId))
    }

    method SaveConversation(userId: string, title: string, totalTokens: nat, maxTokens: nat) returns (c: Conversation)
      requires Valid()
      modifies this
      ensures Valid()
      ensures c == Conversation(old(nextId), userId, title, totalTokens, maxTokens, false)
      ensures nextId == old(nextId) + 1
      ensures old(nextId) !in old(conversations)
      ensures conversations == old(conversations)[c.id := c]
      ensures messages == old(messages)
      ensures journal == old(journal) + [SavedConversation(c.id)]
    {
      c := Conversation(nextId, userId, title, totalTokens, maxTokens, false);
      conversations := conversations[c.id := c];
      nextId := nextId + 1;
      journal := journal + [SavedConversation(c.id)];
    }

    /** A message refers to a conversation created before it. */
    method SaveMessage(conversationId: nat, role: Role, content: string, tokenCount: nat) returns (m: Message)
      requires Valid() && conversationId < nextId
      modifies this
      ensures Valid()
      ensures m == Message(old(nextId), conversationId, role, content, tokenCount)
      ensures nextId == old(nextId) + 1
      ensures forall k :: 0 <= k < |old(messages)| ==> old(messages)[k].id != m.id
      ensures messages == old(messages) + [m]
      ensures conversations == old(conversations)
      ensures journal == old(journal) + [SavedMessage(m.id)]
    {
      m := Message(nextId, conversationId, role, content, tokenCount);
      messages := messages + [m];
      nextId := nextId + 1;
      journal := journal + [SavedMessage(m.id)];
    }

    /** `update(id, {totalTokens})`: sets the column of the row with that id, if any. */
    method SetTotal(conversationId: nat, total: nat)
      requires Valid()
      modifies this
      ensures Valid()
      ensures conversations == if conversationId in old(conversations)
                               then old(conversations)[conversationId := old(conversations)[conversationId].(totalTokens := total)]
                               else old(conversations)
      ensures messages == old(messages) && nextId == old(nextId)
      ensures journal == old(journal) + [UpdatedTotal(conversationId, total)]
    {
      if conversationId in conversations {
        conversations := conversations[conversationId := conversations[conversationId].(totalTokens := total)];
      }
      journal := journal + [UpdatedTotal(conversationId, total)];
    }

    /** `softDelete({id, userId})`: marks the user's row as deleted. */
    method SoftDelete(id: nat, userId: string)
      requires Valid()
      modifies this
      ensures Valid()
      ensures conversations == if id in old(conversations) && old(conversations)[id].userId == userId
                               then old(conversations)[id := old(conversations)[id].(deleted := true)]
                               else old(conversations)
      ensures messages == old(messages) && nextId == old(nextId)
      ensures journal == old(journal) + [SoftDeleted(id)]
    {
      if id in conversations && conversations[id].userId == userId {
        conversations := conversations[id := conversations[id].(deleted := true)];
      }
      journal := journal + [SoftDeleted(id)];
    }
  }
}
