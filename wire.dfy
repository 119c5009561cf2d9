/** What the browser and the chat route exchange: the request body of
    `POST /api/chat` and the two kinds of server-sent event the route writes. */
module Wire {
  import opened Wrappers
  import opened Json

  /** One `{role, content}` entry of the request's `messages` array. */
  datatype WireMessage = WireMessage(role: string, content: string)

  /** The JSON body `{messages, chatId}` the browser posts. */
  datatype ChatRequest = ChatRequest(messages: seq<WireMessage>, chatId: string)

  const DataPrefix: string := "data: "
  const DoneMarker: string := "[DONE]"

  /** `data: {"content":<delta>}` followed by the blank line that ends an event. */
  function DataEvent(delta: string): string
  {
    DataPrefix + EncodeContent(delta) + "\n\n"
  }

  /** The event that announces the end of the answer. */
  const DoneEvent: string := DataPrefix + DoneMarker + "\n\n"

  /** The last message of the body, when there is one and its role is `"user"`. */
  function TrailingUserMessage(messages: seq<WireMessage>): (r: Option<WireMessage>)
    ensures r.Some? <==> |messages| > 0 && messages[|messages| - 1].role == "user"
    ensures r.Some? ==> r.value == messages[|messages| - 1]
  {
    if |messages| > 0 && messages[|messages| - 1].role == "user" then Some(messages[|messages| - 1]) else None
  }
}
