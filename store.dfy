/** The conversation and message persistence the chat code calls. The services behind these calls
    are not part of this model (their shown bodies are stubs), so the store records each call, in
    order, with its arguments; what a call returns is given to the caller from outside. */
module Store {
  import opened Wrappers
  import opened JsonData

  datatype StoreCall =
    | CreateConversation(conversationId: Json, content: Json)
    | AddMessageToConversation(content: Json, conversationId: Json)
    | ResolveConversation(threadId: Json, conversationId: Json, userId: int, title: Json)
    | CreateMessage(conversationId: Json, message: Json)
    | SaveTitle(conversationId: Json, title: Json)
    | UpdateLastActivity(conversationId: Json)

  /** The reply of send_message (ConversationResponse): every field is required. */
  datatype ConversationResponse = ConversationResponse(email: Json, name: Json, role: Json, content: Json, createdAt: string)

  class ChatStore {
    /** Every persistence call made so far, oldest first. */
    var calls: seq<StoreCall>

    constructor()
      ensures calls == []
    {
      calls := [];
    }

    method Record(c: StoreCall)
      modifies this
      ensures calls == old(calls) + [c]
    {
      calls := calls + [c];
    }
  }

  /** The calls among cs that persist a message in the given role. */
  function MessagesWithRole(cs: seq<StoreCall>, role: string): (r: seq<StoreCall>)
    ensures |r| <= |cs|
  {
    if cs == [] then []
    else
      (if cs[0].CreateMessage? && cs[0].message.JObj? && Lookup(cs[0].message.members, "role") == Some(JStr(role))
       then [cs[0]] else [])
      + MessagesWithRole(cs[1..], role)
  }

  lemma {:induction false} MessagesWithRoleConcat(a: seq<StoreCall>, b: seq<StoreCall>, role: string)
    ensures MessagesWithRole(a + b, role) == MessagesWithRole(a, role) + MessagesWithRole(b, role)
  {
    if a == [] {
      assert a + b == b;
    } else {
      assert (a + b)[0] == a[0] && (a + b)[1..] == a[1..] + b;
      MessagesWithRoleConcat(a[1..], b, role);
    }
  }
}
