/**
 * The chat session and its saved conversations (`ChatProvider` in
 * src/contexts/ChatContext.tsx). The four React state cells become the fields of a
 * class; each operation assigns them in the order the source calls the setters. The
 * assistant's reply (or its failure), the clock readings and the fresh ids are
 * parameters of `SendMessage`.
 */
module ChatContext {
  import opened Wrappers
  import opened Text
  import opened ChatTypes

  type Chat = ChatHistory<Message>

  /** The outcome of the awaited reply: its text, or the exception the `catch` handles. */
  datatype Reply = Answered(text: string) | Failed

  /** The ids and clock readings one send draws: `Date.now()` and `new Date()` calls. */
  datatype SendContext = SendContext(
    userId: string,   // Date.now().toString() for the user message
    userAt: int,      // its timestamp
    botId: string,    // (Date.now() + 1).toString() for the reply
    botAt: int,       // its timestamp
    chatId: string,   // Date.now().toString() for a new saved conversation
    savedAt: int)     // the time stamped on the saved conversation

  const TitleLength: nat := 30

  /** `content.slice(0, 30) + (content.length > 30 ? '...' : '')`. */
  function Title(content: string): (t: string)
    ensures |content| <= TitleLength ==> t == content
    ensures |content| > TitleLength ==>
      |t| == TitleLength + 3 && t[..TitleLength] == content[..TitleLength] && t[TitleLength..] == "..."
  {
    Prefix(content, TitleLength) + (if |content| > TitleLength then "..." else "")
  }

  /** `if (currentChatId)`: set, and not the empty (falsy) string. */
  predicate HasCurrent(id: Option<string>) {
    id.Some? && id.value != ""
  }

  /**
   * The history update of a send to a current conversation: every entry with id `id`
   * gets `exchange` appended to its messages and `updatedAt` set to `now`; every other
   * entry, and the order and number of entries, stay as they were.
   */
  function ExtendChat(chats: seq<Chat>, id: string, exchange: seq<Message>, now: int): (r: seq<Chat>)
    ensures |r| == |chats|
    ensures forall i :: 0 <= i < |r| ==>
      r[i].id == chats[i].id && r[i].title == chats[i].title && r[i].createdAt == chats[i].createdAt
    ensures forall i :: 0 <= i < |r| && chats[i].id != id ==> r[i] == chats[i]
    ensures forall i :: 0 <= i < |r| && chats[i].id == id ==>
      r[i].messages == chats[i].messages + exchange && r[i].updatedAt == now
  {
    if chats == [] then []
    else
      var c := chats[0];
      var c' := if c.id == id then c.(messages := c.messages + exchange, updatedAt := now) else c;
      var rest := ExtendChat(chats[1..], id, exchange, now);
      var r := [c'] + rest;
      assert forall i :: 1 <= i < |r| ==> r[i] == rest[i - 1] && chats[i] == chats[1..][i - 1];
      r
  }

  /** Extending keeps the set of ids. */
  lemma {:induction false} ExtendChatKeepsIds(chats: seq<Chat>, id: string, exchange: seq<Message>, now: int)
    ensures Ids(ExtendChat(chats, id, exchange, now)) == Ids(chats)
  {
    if chats != [] {
      var r := ExtendChat(chats, id, exchange, now);
      ExtendChatKeepsIds(chats[1..], id, exchange, now);
      assert r == [r[0]] + ExtendChat(chats[1..], id, exchange, now);
      assert chats == [chats[0]] + chats[1..];
      IdsCons(r[0], ExtendChat(chats[1..], id, exchange, now));
      IdsCons(chats[0], chats[1..]);
    }
  }

  /**
   * `prev.filter(chat => chat.id !== id)`: exactly the entries with another id remain,
   * and removing commutes with concatenation (so the survivors keep their order).
   */
  function RemoveChats(chats: seq<Chat>, id: string): (r: seq<Chat>)
    ensures |r| <= |chats| && Ids(r) == Ids(chats) - {id}
    ensures forall c :: c in r <==> c in chats && c.id != id
  {
    if chats == [] then []
    else
      var rest := RemoveChats(chats[1..], id);
      assert chats == [chats[0]] + chats[1..];
      IdsCons(chats[0], chats[1..]);
      IdsCons(chats[0], rest);
      assert [] + rest == rest;
      (if chats[0].id == id then [] else [chats[0]]) + rest
  }

  /** Removing distributes over concatenation: the kept entries keep their relative order. */
  lemma {:induction false} RemoveChatsAppend(a: seq<Chat>, b: seq<Chat>, id: string)
    ensures RemoveChats(a + b, id) == RemoveChats(a, id) + RemoveChats(b, id)
  {
    if a != [] {
      assert (a + b)[0] == a[0];
      assert (a + b)[1..] == a[1..] + b;
      RemoveChatsAppend(a[1..], b, id);
    } else {
      assert a + b == b;
    }
  }

  /** Removing an id no entry has leaves the list as it was. */
  lemma {:induction false} RemoveChatsAbsent(chats: seq<Chat>, id: string)
    requires id !in Ids(chats)
    ensures RemoveChats(chats, id) == chats
  {
    if chats != [] {
      assert chats[0] in chats;
      assert Ids(chats[1..]) <= Ids(chats) by {
        forall x | x in Ids(chats[1..]) ensures x in Ids(chats) {
          var c :| c in chats[1..] && c.id == x;
          assert c in chats;
        }
      }
      RemoveChatsAbsent(chats[1..], id);
    }
  }

  /** `chatHistories.find(c => c.id === id)`: the first entry with that id, if any. */
  function FindChat(chats: seq<Chat>, id: string): (r: Option<Chat>)
    ensures r.None? <==> id !in Ids(chats)
    ensures r.Some? ==> (exists i :: 0 <= i < |chats| && chats[i] == r.value && r.value.id == id
                                    && forall j :: 0 <= j < i ==> chats[j].id != id)
  {
    if chats == [] then None
    else if chats[0].id == id then Some(chats[0])
    else
      var r := FindChat(chats[1..], id);
      assert chats == [chats[0]] + chats[1..];
      IdsCons(chats[0], chats[1..]);
      r
  }

  class ChatProvider {
    var messages: seq<Message>
    var chatHistories: seq<Chat>
    var currentChatId: Option<string>
    var isLoading: bool

    /** No saved conversation has an empty message list. */
    ghost predicate ChatsNonEmpty()
      reads this
    {
      forall i :: 0 <= i < |chatHistories| ==> |chatHistories[i].messages| > 0
    }

    /** The state every operation keeps: saved conversations are non-empty, and the current id is saved. */
    ghost predicate Valid()
      reads this
    {
      && ChatsNonEmpty()
      && (currentChatId.Some? ==> currentChatId.value in Ids(chatHistories))
    }

    /** The initial `useState` values. */
    constructor ()
      ensures Valid()
      ensures messages == [] && chatHistories == [] && currentChatId == None && !isLoading
    {
      messages := [];
      chatHistories := [];
      currentChatId := None;
      isLoading := false;
    }

    /**
     * `sendMessage(content)`: a blank `content` changes nothing. Otherwise the trimmed
     * content is appended as a user message; on an answer the reply follows it and the
     * exchange is saved, either onto the current conversation or as a new conversation
     * put first, whose messages are the session before the send plus the exchange. On a
     * failure only the user message stays. Loading ends false either way.
     */
    method SendMessage(content: string, reply: Reply, ctx: SendContext)
      requires Valid()
      modifies this
      ensures Valid()
      ensures IsBlank(content) ==>
        && messages == old(messages) && chatHistories == old(chatHistories)
        && currentChatId == old(currentChatId) && isLoading == old(isLoading)
      ensures !IsBlank(content) && reply.Failed? ==>
        && messages == old(messages) + [Message(ctx.userId, Trim(content), User, ctx.userAt)]
        && chatHistories == old(chatHistories) && currentChatId == old(currentChatId) && !isLoading
      ensures !IsBlank(content) && reply.Answered? ==>
        var exchange := [Message(ctx.userId, Trim(content), User, ctx.userAt),
                         Message(ctx.botId, reply.text, Bot, ctx.botAt)];
        && messages == old(messages) + exchange
        && !isLoading
        && (HasCurrent(old(currentChatId)) ==>
              chatHistories == ExtendChat(old(chatHistories), old(currentChatId).value, exchange, ctx.savedAt)
              && currentChatId == old(currentChatId))
        && (!HasCurrent(old(currentChatId)) ==>
              chatHistories == [ChatHistory(ctx.chatId, Title(content), old(messages) + exchange, ctx.savedAt, ctx.savedAt)]
                               + old(chatHistories)
              && currentChatId == Some(ctx.chatId))
    {
      if IsBlank(content) {
        return;
      }
      var userMessage := Message(ctx.userId, Trim(content), User, ctx.userAt);
      // the render-time session the source's closure still reads after the await
      var priorMessages := messages;

      messages := messages + [userMessage];
      isLoading := true;

      if reply.Answered? {
        var botMessage := Message(ctx.botId, reply.text, Bot, ctx.botAt);
        messages := messages + [botMessage];
        assert messages == priorMessages + [userMessage, botMessage];
        SaveExchange(content, priorMessages, [userMessage, botMessage], ctx);
      }
      isLoading := false;
    }

    /**
     * The history step of an answered send: with a current conversation the exchange is
     * appended to it; otherwise a new conversation holding the session before the send
     * plus the exchange is put first and becomes current.
     */
    method SaveExchange(content: string, prior: seq<Message>, exchange: seq<Message>, ctx: SendContext)
      requires Valid() && exchange != []
      modifies this`chatHistories, this`currentChatId
      ensures Valid()
      ensures HasCurrent(old(currentChatId)) ==>
        && chatHistories == ExtendChat(old(chatHistories), old(currentChatId).value, exchange, ctx.savedAt)
        && currentChatId == old(currentChatId)
      ensures !HasCurrent(old(currentChatId)) ==>
        && chatHistories == [ChatHistory(ctx.chatId, Title(content), prior + exchange, ctx.savedAt, ctx.savedAt)]
                            + old(chatHistories)
        && currentChatId == Some(ctx.chatId)
    {
      if HasCurrent(currentChatId) {
        ExtendChatKeepsIds(chatHistories, currentChatId.value, exchange, ctx.savedAt);
        chatHistories := ExtendChat(chatHistories, currentChatId.value, exchange, ctx.savedAt);
      } else {
        var newChat := ChatHistory(ctx.chatId, Title(content), prior + exchange, ctx.savedAt, ctx.savedAt);
        IdsCons(newChat, chatHistories);
        chatHistories := [newChat] + chatHistories;
        currentChatId := Some(ctx.chatId);
      }
    }

    /** `startNewChat()`: an empty, unsaved session; the saved conversations stay. */
    method StartNewChat()
      requires ChatsNonEmpty()
      modifies this
      ensures Valid()
      ensures messages == [] && currentChatId == None
      ensures chatHistories == old(chatHistories) && isLoading == old(isLoading)
    {
      messages := [];
      currentChatId := None;
    }

    /**
     * `loadChat(id)`: an id no saved conversation has changes nothing; otherwise the
     * session shows the first conversation with that id and it becomes current.
     */
    method LoadChat(id: string)
      requires Valid()
      modifies this
      ensures Valid()
      ensures chatHistories == old(chatHistories) && isLoading == old(isLoading)
      ensures id !in Ids(chatHistories) ==> messages == old(messages) && currentChatId == old(currentChatId)
      ensures id in Ids(chatHistories) ==>
        && messages == FindChat(chatHistories, id).value.messages
        && currentChatId == Some(id)
    {
      var chat := FindChat(chatHistories, id);
      if chat.Some? {
        messages := chat.value.messages;
        currentChatId := Some(id);
      }
    }

    /**
     * `deleteChat(id)`: every conversation with that id goes, the others keep their
     * order; only when it was the current one does the session start anew.
     */
    method DeleteChat(id: string)
      requires Valid()
      modifies this
      ensures Valid()
      ensures chatHistories == RemoveChats(old(chatHistories), id) && isLoading == old(isLoading)
      ensures old(currentChatId) == Some(id) ==> messages == [] && currentChatId == None
      ensures old(currentChatId) != Some(id) ==> messages == old(messages) && currentChatId == old(currentChatId)
    {
      chatHistories := RemoveChats(chatHistories, id);
      if currentChatId == Some(id) {
        StartNewChat();
      }
    }
  }
}
