/** The hand-off between the two new-chat forms and the chat page: the form
    leaves the first message in session storage under the chat's key and the
    chat page, opened on that chat with no messages yet, takes it out and
    sends it. */
module HandOff {
  import opened Wrappers
  import opened Text
  import opened Json
  import opened Wire
  import opened Session
  import opened ChatClient
  import NewChatForm
  import HomeChatInput

  /** What a form stores for a non-blank input passes the chat page's checks
      (present and non-empty) and decodes to the trimmed input, which is
      itself non-empty. */
  lemma StoredMessageReadBack(input: string)
    requires !IsBlank(input)
    ensures EncodeContent(Trim(input)) != ""
    ensures DecodeContent(EncodeContent(Trim(input))) == Some(Trim(input))
    ensures Trim(input) != ""
  {
    EncodePrintable(Trim(input));
    DecodeEncode(Trim(input));
    TrimEmptyIffBlank(input);
  }

  /** The page opened after a form stored `message` under the chat's key sends
      exactly that message once, as the chat's first message, and removes the
      key. */
  method OpenChat(store: SessionStore, chatId: string, message: string, answer: Reply) returns (chat: ChatInterface)
    requires message != ""
    requires InitialKey(chatId) in store.items && store.items[InitialKey(chatId)] == EncodeContent(message)
    modifies store
    ensures fresh(chat) && chat.hasProcessedInitial
    ensures store.items == old(store.items) - {InitialKey(chatId)}
    ensures chat.messages == [ChatMessage(User, message), ChatMessage(Assistant, FinalText(answer))]
    ensures chat.requests == [ChatRequest([WireMessage("user", message)], chatId)]
  {
    EncodePrintable(message);
    DecodeEncode(message);
    chat := new ChatInterface(chatId, []);
    chat.ProcessInitialMessage(store, answer);
  }

  /** From the new-chat form to the chat page: the page sends the trimmed
      text the user typed. */
  method FromNewChatForm(form: NewChatForm.Form, store: SessionStore, chatId: string, answer: Reply)
    returns (chat: ChatInterface)
    requires !IsBlank(form.input) && !form.isLoading
    modifies form, store
    ensures fresh(chat)
    ensures store.items == old(store.items) - {InitialKey(chatId)}
    ensures chat.messages == [ChatMessage(User, Trim(old(form.input))), ChatMessage(Assistant, FinalText(answer))]
    ensures chat.requests == [ChatRequest([WireMessage("user", Trim(old(form.input)))], chatId)]
  {
    var message := Trim(form.input);
    StoredMessageReadBack(form.input);
    form.HandleSubmit(store, Returned(Some(chatId)));
    chat := OpenChat(store, chatId, message, answer);
    assert old(store.items)[InitialKey(chatId) := EncodeContent(message)] - {InitialKey(chatId)}
        == old(store.items) - {InitialKey(chatId)};
  }

  /** From the home page's box to the chat page: the page sends the trimmed
      text the user typed, the box having been cleared. */
  method FromHomeChatInput(box: HomeChatInput.ChatInput, store: SessionStore, chatId: string, answer: Reply)
    returns (chat: ChatInterface)
    requires !IsBlank(box.input) && chatId != ""
    modifies box, store
    ensures fresh(chat) && box.input == ""
    ensures store.items == old(store.items) - {InitialKey(chatId)}
    ensures chat.messages == [ChatMessage(User, Trim(old(box.input))), ChatMessage(Assistant, FinalText(answer))]
    ensures chat.requests == [ChatRequest([WireMessage("user", Trim(old(box.input)))], chatId)]
  {
    var message := Trim(box.input);
    StoredMessageReadBack(box.input);
    box.HandleSubmit(store, Returned(Some(chatId)));
    chat := OpenChat(store, chatId, message, answer);
    assert old(store.items)[InitialKey(chatId) := EncodeContent(message)] - {InitialKey(chatId)}
        == old(store.items) - {InitialKey(chatId)};
  }
}
