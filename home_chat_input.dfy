/** The home page's message box (`HomeChatInput`): like the new-chat form it
    creates a chat, leaves the message in session storage and navigates, but
    it also clears the box, rejects a chat without an id and reports failures
    in a toast. `createChat` is an oracle whose reply is a parameter. */
module HomeChatInput {
  import opened Wrappers
  import opened Text
  import opened Json
  import opened Session

  const NoIdMessage: string := "Failed to create chat - no ID returned"
  const FallbackToast: string := "Failed to start chat. Please try again."

  /** Whether the reply carries a chat with a non-empty id, which is what
      the component tests before storing the message. */
  predicate HasId(reply: CreateReply) {
    reply.Returned? && reply.chat.Some? && reply.chat.value != ""
  }

  /** The toast of a failed submission: the message of a thrown `Error`, the
      missing-id error's message, or the fallback for any other value. */
  function FailureToast(reply: CreateReply): (text: string)
    requires !HasId(reply)
    ensures reply.CreateThrew? && reply.error.ErrorObject? ==> text == reply.error.message
    ensures reply.CreateThrew? && reply.error.NonError? ==> text == FallbackToast
    ensures reply.Returned? ==> text == NoIdMessage
  {
    match reply
    case CreateThrew(e) => (match e case ErrorObject(message) => message case NonError => FallbackToast)
    case Returned(_) => NoIdMessage
  }

  class ChatInput {
    var input: string
    var isLoading: bool
    /** What the submissions did, in order. */
    var effects: seq<FormEffect>

    constructor ()
      ensures input == "" && !isLoading && effects == []
    {
      input := "";
      isLoading := false;
      effects := [];
    }

    /** `handleSubmit`. Only blank input is ignored: there is no guard on
        loading here. Otherwise loading starts and the chat is created. A chat
        with an id gets the trimmed input stored under its key, then the box
        is cleared, then the page navigates, loading staying on. Any failure,
        a missing id included, leaves storage and the box alone, shows a
        toast and ends loading. */
    method HandleSubmit(store: SessionStore, reply: CreateReply)
      modifies this, store
      ensures Trim(old(input)) == "" ==>
                input == old(input) && isLoading == old(isLoading) && effects == old(effects) && store.items == old(store.items)
      ensures Trim(old(input)) != "" && HasId(reply) ==>
                var key, value := InitialKey(reply.chat.value), EncodeContent(Trim(old(input)));
                && input == "" && isLoading
                && store.items == old(store.items)[key := value]
                && effects == old(effects) + [CreateChat(Title(old(input))), StoreItem(key, value), ClearInput, Navigate(ChatPath(reply.chat.value))]
      ensures Trim(old(input)) != "" && !HasId(reply) ==>
                && input == old(input) && !isLoading
                && store.items == old(store.items)
                && effects == old(effects) + [CreateChat(Title(old(input))), ShowToast(FailureToast(reply))]
    ensures Trim(old(input)) != "" && reply.CreateThrew? ==>
              effects[|effects| - 1] == ShowToast(if reply.error.ErrorObject? then reply.error.message else FallbackToast)
    ensures Trim(old(input)) != "" && reply.Returned? && !HasId(reply) ==>
              effects[|effects| - 1] == ShowToast(NoIdMessage)
    {
      if Trim(input) == "" {
        return;
      }
      isLoading := true;
      var title := Title(input);
      effects := effects + [CreateChat(title)];
      if !HasId(reply) {
        effects := effects + [ShowToast(FailureToast(reply))];
        isLoading := false;
        return;
      }
      var id := reply.chat.value;
      var key, value := InitialKey(id), EncodeContent(Trim(input));
      store.SetItem(key, value);
      effects := effects + [StoreItem(key, value)];
      input := "";
      effects := effects + [ClearInput];
      effects := effects + [Navigate(ChatPath(id))];
    }
  }
}
