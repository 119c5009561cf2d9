/** What the two new-chat forms share with the chat page: the browser's
    session storage, the key under which the first message is handed over,
    and the rule that turns the first message into the chat's title. */
module Session {
  import opened Wrappers
  import opened Text

  /** `window.sessionStorage`: string keys to string values. */
  class SessionStore {
    var items: map<string, string>

    constructor ()
      ensures items == map[]
    {
      items := map[];
    }

    /** `getItem(key)`; `None` stands for `null`. */
    function GetItem(key: string): (r: Option<string>)
      reads this
      ensures r.Some? <==> key in items
      ensures r.Some? ==> r.value == items[key]
    {
      if key in items then Some(items[key]) else None
    }

    method SetItem(key: string, value: string)
      modifies this
      ensures items == old(items)[key := value]
    {
      items := items[key := value];
    }

    method RemoveItem(key: string)
      modifies this
      ensures items == old(items) - {key}
    {
      items := items - {key};
    }
  }

  const InitialKeyPrefix: string := "chat_initial_"

  /** `chat_initial_<chat id>`: where a form leaves the first message for the
      chat page. Distinct chats get distinct keys. */
  function InitialKey(chatId: string): (key: string)
    ensures InitialKeyPrefix <= key
    ensures |key| == |InitialKeyPrefix| + |chatId| && key[|InitialKeyPrefix|..] == chatId
  {
    InitialKeyPrefix + chatId
  }

  lemma InitialKeyInjective(a: string, b: string)
    requires InitialKey(a) == InitialKey(b)
    ensures a == b
  {
    assert a == InitialKey(a)[|InitialKeyPrefix|..];
  }

  const ChatPathPrefix: string := "/chat/"

  /** `/chat/<chat id>`: the page a form navigates to; it names the chat. */
  function ChatPath(chatId: string): (path: string)
    ensures ChatPathPrefix <= path
    ensures |path| == |ChatPathPrefix| + |chatId| && path[|ChatPathPrefix|..] == chatId
  {
    ChatPathPrefix + chatId
  }

  /** A value thrown inside a form's `try`: an `Error` with its message, or
      anything else. */
  datatype Thrown = ErrorObject(message: string) | NonError

  /** What `await createChat(title)` gives: a thrown value, or the created
      chat, `None` standing for a null result. An absent `id` is the empty id. */
  datatype CreateReply = CreateThrew(error: Thrown) | Returned(chat: Option<string>)

  /** What a form does to the page, in order. */
  datatype FormEffect =
    | CreateChat(title: string)
    | StoreItem(key: string, value: string)
    | ClearInput
    | Navigate(path: string)
    | ShowToast(text: string)

  const TitleLength: nat := 50
  const Ellipsis: string := "..."

  /** The chat title: the first 50 characters of the trimmed input, followed by
      "..." when the input before trimming is longer than 50. */
  function Title(input: string): string
  {
    Take(Trim(input), TitleLength) + (if |input| > TitleLength then Ellipsis else "")
  }

  /** The title is at most 53 characters: a prefix of the trimmed input, then
      "..." exactly when the untrimmed input is longer than 50. An input of at
      most 50 characters becomes the whole trimmed input; a trimmed input
      longer than 50 is cut to 50 characters. Because the test looks at the
      untrimmed length, padding can add "..." to a title from which nothing
      was cut. */
  lemma TitleFacts(input: string)
    ensures var t := Title(input);
      && |t| <= TitleLength + |Ellipsis|
      && t[..|t| - (if |input| > TitleLength then 3 else 0)] <= Trim(input)
      && (|input| > TitleLength <==> |t| >= 3 && t[|t| - 3..] == Ellipsis && |t| - 3 == |Take(Trim(input), TitleLength)|)
      && (|input| <= TitleLength ==> t == Trim(input))
      && (|Trim(input)| > TitleLength ==> t == Trim(input)[..TitleLength] + Ellipsis)
      && (|Trim(input)| <= TitleLength < |input| ==> t == Trim(input) + Ellipsis)
  {
    var t := Title(input);
    var head := Take(Trim(input), TitleLength);
    if |input| > TitleLength {
      assert t == head + Ellipsis;
      assert t[..|t| - 3] == head;
      assert t[|t| - 3..] == Ellipsis;
    } else {
      assert t == head;
      assert t[..|t|] == t;
    }
  }
}
