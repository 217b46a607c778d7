/**
 * The persisted chat store: an append-only message log with a clear
 * operation, and the id of the current conversation.
 */
module ChatStore {
  import opened Wrappers

  datatype Role = User | Assistant

  /** A chat message; `timestamp` is the creation instant as the host's clock gives it. */
  datatype Message = Message(id: string, content: string, role: Role, timestamp: int)

  class Store {
    var messages: seq<Message>
    /** `null` before a conversation is chosen. */
    var conversationId: Option<string>

    /** The initial state: no messages, no conversation. */
    constructor ()
      ensures messages == [] && conversationId == None
    {
      messages := [];
      conversationId := None;
    }

    /** `addMessage`: the message goes at the end; earlier messages and the conversation id stay. */
    method AddMessage(m: Message)
      modifies this
      ensures messages == old(messages) + [m]
      ensures |messages| == |old(messages)| + 1 && messages[|messages| - 1] == m
      ensures messages[..|old(messages)|] == old(messages)
      ensures conversationId == old(conversationId)
    {
      messages := messages + [m];
    }

    /** `clearMessages`: the log becomes empty; the conversation id stays. */
    method ClearMessages()
      modifies this
      ensures messages == []
      ensures conversationId == old(conversationId)
    {
      messages := [];
    }

    /** `setConversationId`: exactly the given id (or `null`) is stored; the log stays. */
    method SetConversationId(id: Option<string>)
      modifies this
      ensures conversationId == id
      ensures messages == old(messages)
    {
      conversationId := id;
    }
  }

  /** Clearing twice leaves the same state as clearing once. */
  method ClearIsIdempotent(s: Store)
    modifies s
    ensures s.messages == [] && s.conversationId == old(s.conversationId)
  {
    s.ClearMessages();
    var once := s.messages;
    var idOnce := s.conversationId;
    s.ClearMessages();
    assert s.messages == once && s.conversationId == idOnce;
  }
}
