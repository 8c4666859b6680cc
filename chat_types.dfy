/**
 * The shapes the chat session works with (src/types/index.ts). A `Date` is kept as its
 * epoch-millisecond value.
 */
module ChatTypes {

  /** Who wrote a message of the chat session: `'user' | 'bot'`. */
  datatype Sender = User | Bot

  /** One message of the chat session. */
  datatype Message = Message(id: string, content: string, sender: Sender, timestamp: int)

  /**
   * A saved conversation. The message type is a parameter: the session stores
   * `Message`s, while the analytics read the role-based `ChatMessage` shape.
   */
  datatype ChatHistory<M> = ChatHistory(
    id: string,
    title: string,
    messages: seq<M>,
    createdAt: int,
    updatedAt: int)

  /** A canned prompt the input box can be filled with. */
  datatype PromptTemplate = PromptTemplate(id: string, title: string, content: string, category: string)

  /** The ids of a list of conversations. */
  function Ids<M>(chats: seq<ChatHistory<M>>): set<string> {
    set i | 0 <= i < |chats| :: chats[i].id
  }

  /** The ids of `[c] + rest` are `c`'s id and those of `rest`. */
  lemma {:induction false} IdsCons<M>(c: ChatHistory<M>, rest: seq<ChatHistory<M>>)
    ensures Ids([c] + rest) == {c.id} + Ids(rest)
  {
    var s := [c] + rest;
    forall x | x in Ids(rest) ensures x in Ids(s) {
      var i :| 0 <= i < |rest| && rest[i].id == x;
      assert s[i + 1] == rest[i];
    }
    assert s[0] == c;
  }
}
