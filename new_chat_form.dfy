/** The new-chat page's form (`NewChatForm`): a submission creates a chat
    titled after the message, leaves the message in session storage for the
    chat page and navigates there. `createChat` is an oracle whose reply is a
    parameter. */
module NewChatForm {
  import opened Wrappers
  import opened Text
  import opened Json
  import opened Session

  class Form {
    var input: string
    var isLoading: bool
    /** What the submissions did, in order. */
    var effects: seq<FormEffect>

    constructor ()
      ensures input == "" && !isLoading && effects == []
    {
      input := "";
      isLoading := false;
      effects := [];
    }

    /** `handleSubmit`. Blank input and a submission while one is in progress
        are ignored. Otherwise loading starts and the chat is created; when it
        comes back, the trimmed input is stored under the chat's key, encoded
        as `{"content": ...}`, and the page navigates to the chat, loading
        staying on. A thrown error, including reading the id of a null chat,
        only ends loading. */
    method HandleSubmit(store: SessionStore, reply: CreateReply)
      modifies this, store
      ensures input == old(input)
      ensures Trim(old(input)) == "" || old(isLoading) ==>
                isLoading == old(isLoading) && effects == old(effects) && store.items == old(store.items)
      ensures Trim(old(input)) != "" && !old(isLoading) && reply.Returned? && reply.chat.Some? ==>
                var key, value := InitialKey(reply.chat.value), EncodeContent(Trim(old(input)));
                && isLoading
                && store.items == old(store.items)[key := value]
                && effects == old(effects) + [CreateChat(Title(old(input))), StoreItem(key, value), Navigate(ChatPath(reply.chat.value))]
      ensures Trim(old(input)) != "" && !old(isLoading) && !(reply.Returned? && reply.chat.Some?) ==>
                && !isLoading
                && store.items == old(store.items)
                && effects == old(effects) + [CreateChat(Title(old(input)))]
    {
      if Trim(input) == "" || isLoading {
        return;
      }
      isLoading := true;
      var title := Title(input);
      effects := effects + [CreateChat(title)];
      match reply
      case CreateThrew(_) =>
        isLoading := false;
      case Returned(None) =>
        isLoading := false;
      case Returned(Some(id)) =>
        var key, value := InitialKey(id), EncodeContent(Trim(input));
        store.SetItem(key, value);
        effects := effects + [StoreItem(key, value)];
        effects := effects + [Navigate(ChatPath(id))];
    }
  }
}
