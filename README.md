# ChatPDF core, modelled in Dafny

ChatPDF is a Next.js application for chatting with uploaded PDF and text
files. This project models its three self-contained pieces of logic and proves
properties of them:

- **The chat route** (`POST /api/chat`). It authenticates, then applies an
  in-memory rate limiter of five requests per user per 60 000 ms window. It
  saves the user's message and retrieves document context, choosing between
  none, the semantic search results and every fetched document. It picks a
  system prompt, then streams the completion back as `data: {"content":…}`
  events. The assistant's answer is saved only when the provider reports
  `finish_reason === "stop"`.
  - Modules: `RateLimit`, `Retrieval`, `Prompt`, `Streaming`, `ChatRoute`,
    `Wire`.
- **The upload route** (`POST /api/upload`). It checks the caller, the form
  fields and the 5 MiB limit, then builds the storage path and stores the file.
  Next it records the file, where a failure is only logged. It dispatches on
  the MIME type, rejects blank text, embeds the pieces and saves one row per
  piece.
  - Module: `Upload`.
- **The browser side.**
  - The chat page's component (`ChatClient.ChatInterface`): its message list,
    the line-oriented reader of the event stream, error and abort handling,
    the stop button, and the pick-up of a first message left in session
    storage.
  - The two new-chat forms (`NewChatForm.Form`, `HomeChatInput.ChatInput`).
    They create the chat with a truncated title, leave the message in session
    storage and navigate to the chat.
  - Modules: `ChatClient`, `Session`, `NewChatForm`, `HomeChatInput`.

Two modules tie the pieces together:
- `Protocol` proves that the page rebuilds exactly the text the route
  streams, and that this text is the text the route saves.
- `HandOff` proves that the message typed into either form is what the chat
  page sends first, once.

`Text` and `Json` model the pieces of JavaScript the code relies on:
- from `Text`: `trim`, `slice`, `split`, `join` and number rendering;
- from `Json`: `JSON.stringify`/`JSON.parse` on the `{content}` object.

Effectful code keeps its shape:
- The rate limiter, session storage, the chat component and the forms are
  classes whose methods update their fields.
- The server's `for await` loop and the client's read loops are methods with
  loops. Each is proved against a function that specifies it.
- Every external service is a parameter holding its answer: Supabase,
  `createChat`, the PDF extractor, the text splitter and the clock. So are the
  OpenAI calls the routes make: the query and document embeddings and the
  completion request, including its rejection.
  - Each route method returns the calls it made, in order, as a sequence of
    effects.

## Model

| member | source | states |
|---|---|---|
| `Text.Trim` | src/components/chat-interface.tsx:193-194 | the trimmed text is no longer than the input and neither starts nor ends with whitespace |
| `Text.TrimInfix` | src/components/chat-interface.tsx:194 | trimming removes only whitespace: the result sits in the input between two blank stretches |
| `Text.TrimEmptyIffBlank` | src/components/new-chat-form.tsx:21 | `!input.trim()` holds exactly when every character of the input is whitespace |
| `Text.Take` | src/components/new-chat-form.tsx:27 | `slice(0, n)` is a prefix of the input of length `min(n, length)` |
| `Text.SplitJoin` | src/components/chat-interface.tsx:118 | `split` gives at least one piece, no piece holds the separator, and joining the pieces with it gives the input back |
| `Text.SplitLast` | src/app/api/upload/route.ts:32 | the last piece of `split` is the input's end after its last separator, or the whole input when there is no separator |
| `Text.JoinEmptyIff` | src/app/api/chat/route.ts:95 | a join with a non-empty separator is empty exactly when there are no parts or a single empty part |
| `Text.Decimal` | src/app/api/upload/route.ts:33 | a number renders as a non-empty string of decimal digits |
| `Text.DecimalRoundTrip` | src/app/api/upload/route.ts:33 | the timestamp's decimal rendering reads back as the same number |
| `Json.EscapeChar` | src/app/api/chat/route.ts:184 | `JSON.stringify` writes every character as at least one printable character |
| `Json.UnescapeEscape` | src/components/chat-interface.tsx:127 | reading back an escaped string literal gives the original string |
| `Json.EncodePrintable` | src/app/api/chat/route.ts:184 | the encoded `{content}` object starts with `{` and holds no control character, so no line feed |
| `Json.StripPrefixIff` | src/components/chat-interface.tsx:121-122 | stripping `data: ` succeeds exactly on lines that start with it, and leaves the text after the 6 characters |
| `Json.DecodeEncode` | src/components/chat-interface.tsx:180 | `JSON.parse(JSON.stringify({content: s})).content` is `s` |
| `RateLimit.RejectIff` | src/app/api/chat/route.ts:29-38 | a request is refused iff the user's window is still open (at most 60 000 ms old) and holds 5 requests; a refusal changes no entry |
| `RateLimit.AdmitEffect` | src/app/api/chat/route.ts:29-41 | an admitted request raises only its user's count, by exactly 1; the window restarts only after strictly more than 60 000 ms |
| `RateLimit.DecideKeepsBounded` | src/app/api/chat/route.ts:36-41 | no stored count ever exceeds 5 |
| `RateLimit.AdmittedWithinWindow` | src/app/api/chat/route.ts:26-41 | requests inside one open window are admitted at most `5 - count` times |
| `RateLimit.AdmittedFromFirstRequest` | src/app/api/chat/route.ts:26-41 | an unseen user gets at most 5 requests admitted within 60 000 ms of their first |
| `RateLimit.SixthRejectedThenReset` | src/app/api/chat/route.ts:31-40 | the sixth request in a window is refused; after the window elapses the next is admitted with count 1 |
| `RateLimit.RateLimiter.constructor` | src/app/api/chat/route.ts:13 | the limiter starts with an empty map, which is within bounds |
| `RateLimit.RateLimiter.Check` | src/app/api/chat/route.ts:27-41 | updating the map entry in place gives the verdict and the map that `Decide` specifies, and keeps every count at most 5 |
| `Retrieval.Limited` | src/app/api/chat/route.ts:65-69 | `.limit(100)` returns the first `min(n, 100)` of the `n` rows, so none only when there are none |
| `Retrieval.Contents` | src/app/api/chat/route.ts:95 | one content per document, in order |
| `Retrieval.Retrieve` | src/app/api/chat/route.ts:58-112 | the context is empty with no trailing user message, on a fetch error or with no documents; otherwise it is the semantic hits joined by a blank line when there are any, else every fetched document (at most 100); the count says how many |
| `Retrieval.ContextEmptyIff` | src/app/api/chat/route.ts:93-107 | the context text is empty exactly when nothing was retrieved or the chosen documents are a single empty one |
| `Prompt.Turns` | src/app/api/chat/route.ts:164-167 | every client message becomes one turn, with the same role and content, in order |
| `Prompt.CompletionMessages` | src/app/api/chat/route.ts:162-168 | the system message comes first, then every client message in its original order |
| `Prompt.PromptFollowsRetrieval` | src/app/api/chat/route.ts:114-147 | the document prompt is chosen exactly when the context is non-empty, and it carries the context and a positive section count |
| `Prompt.NoDocumentsNoGrounding` | src/app/api/chat/route.ts:109-157 | a chat without documents always gets the no-documents prompt |
| `Prompt.SingleChunkGrounding` | src/app/api/chat/route.ts:93-118 | a chat with one non-empty chunk is grounded on that chunk as one section, whether the search or the fallback supplies it |
| `Streaming.Serve` | src/app/api/chat/route.ts:176-203 | the `for await` loop computes exactly the accumulator and the actions of the fold `Run` over the chunks |
| `Streaming.RunAfterFailure` | src/app/api/chat/route.ts:199-202 | once an error has ended the loop, later chunks change nothing |
| `Streaming.FailedIff` | src/app/api/chat/route.ts:178-202 | the stream fails exactly when some chunk throws |
| `Streaming.DeltasNonEmpty` | src/app/api/chat/route.ts:180-181 | only non-empty deltas are forwarded |
| `Streaming.DataEventsAt` | src/app/api/chat/route.ts:181-186 | one data event per forwarded delta, in arrival order |
| `Streaming.RunWithoutStop` | src/app/api/chat/route.ts:179-186 | without a stop chunk the loop only forwards deltas, then the error if one was thrown, and never closes the stream |
| `Streaming.ForwardStep` | src/app/api/chat/route.ts:179-187 | a chunk without the stop reason forwards its non-empty delta, or ends the loop with an error |
| `Streaming.StopStep` | src/app/api/chat/route.ts:188-197 | the stop chunk forwards its delta, then saves the full answer, enqueues `[DONE]` and closes, in that order |
| `Streaming.ServeOutcome` | src/app/api/chat/route.ts:176-203 | one data event per non-empty delta, then the error if the stream threw, or the save of the concatenated deltas, `[DONE]` and the close if it stopped |
| `Streaming.InsertsNone` | src/app/api/chat/route.ts:183-185 | actions other than the insert save nothing |
| `Streaming.NoInsertsInDataEvents` | src/app/api/chat/route.ts:183-185 | enqueuing data events saves nothing |
| `Streaming.InsertsOfOutcome` | src/app/api/chat/route.ts:188-201 | after the data events, only a completed answer saves, and it saves once |
| `Streaming.PersistOnceAfterStop` | src/app/api/chat/route.ts:188-197 | the assistant message is saved exactly once, with the full answer, when the answer completes, and never otherwise |
| `Streaming.StepAdds` | src/app/api/chat/route.ts:179-197 | one iteration only appends actions, and saves at most once, only for a stop chunk before any error |
| `Streaming.InsertsAtMostStops` | src/app/api/chat/route.ts:188-197 | whatever the provider sends, the loop saves at most one assistant message per stop chunk |
| `ChatRoute.LookupEffectsShape` | src/app/api/chat/route.ts:48-112 | the lookups are nothing, the save and the fetch, those plus the query embedding, or those plus the match, according to the last message's role, the documents found and whether the embedding threw |
| `ChatRoute.AdmittedEffectsOrder` | src/app/api/chat/route.ts:48-170 | the user message is saved once, first, exactly when the body's last message has role `user`, and it is that message's content; the documents are read next; the completion request comes last |
| `ChatRoute.SearchEffectsOrder` | src/app/api/chat/route.ts:63-83 | the query, which is the user's message, is embedded exactly when the fetch returned documents |
| `ChatRoute.MatchEffectsOrder` | src/app/api/chat/route.ts:78-90 | `match_documents` runs exactly when documents exist and the query embedding did not throw, right after that embedding |
| `ChatRoute.Post` | src/app/api/chat/route.ts:15-41 | 401 before the limiter is touched; 429 with no effects when refused; otherwise the limiter map advances as `Decide` says and the admitted effects and response follow |
| `ChatRoute.Answer` | src/app/api/chat/route.ts:43-206 | an admitted request's calls are the admitted effects in order; a rejected completion request throws out of the handler (a 500) after the user's message is saved, otherwise the stream is the loop's actions |
| `ChatRoute.Lookups` | src/app/api/chat/route.ts:48-112 | the save, the fetch, the embedding and the match are made in the order and under the conditions `LookupEffects` gives |
| `Session.SessionStore.SetItem` | src/components/new-chat-form.tsx:31-34 | `setItem` writes that one key |
| `Session.SessionStore.RemoveItem` | src/components/chat-interface.tsx:177 | `removeItem` drops that one key |
| `Session.InitialKey` | src/components/chat-interface.tsx:172 | the key starts with `chat_initial_` and the chat id follows it |
| `Session.InitialKeyInjective` | src/components/new-chat-form.tsx:32 | distinct chats get distinct storage keys |
| `Session.ChatPath` | src/components/new-chat-form.tsx:37 | the path starts with `/chat/` and the chat id follows it |
| `Session.TitleFacts` | src/components/new-chat-form.tsx:27 | the title is at most 53 characters, a prefix of the trimmed input, then `...` iff the untrimmed input is longer than 50 |
| `ChatClient.Project` | src/components/chat-interface.tsx:91-94 | every message is projected to its role and content, in order |
| `ChatClient.WithLastAssistantEffect` | src/components/chat-interface.tsx:130-137 | only the last message can change, only if it is the assistant's, and then it holds the new content |
| `ChatClient.WithLastAssistantTwice` | src/components/chat-interface.tsx:130-137 | a later update of the last assistant message overrides an earlier one |
| `ChatClient.ReplaceLast` | src/components/chat-interface.tsx:130-137 | the assistant placeholder at the end takes the new content and nothing before it changes |
| `ChatClient.ChatInterface.constructor` | src/components/chat-interface.tsx:36-47 | the component starts with the initial messages, empty input, not loading, no controller, nothing processed |
| `ChatClient.ChatInterface.BeginSend` | src/components/chat-interface.tsx:67-98 | the user message and then an empty assistant placeholder are appended; the request carries every earlier message plus the new one, projected, with the chat id |
| `ChatClient.ChatInterface.ConsumeLine` | src/components/chat-interface.tsx:120-142 | a `[DONE]` line is reported; otherwise the line's decoded non-empty content is appended and the placeholder shows the accumulator |
| `ChatClient.ChatInterface.ConsumeRead` | src/components/chat-interface.tsx:117-143 | the lines of a read are consumed in order up to the first `[DONE]` line |
| `ChatClient.ChatInterface.ConsumeReads` | src/components/chat-interface.tsx:111-144 | the loop over all reads ends with the text of every read, and the placeholder shows it |
| `ChatClient.ChatInterface.FinishSend` | src/components/chat-interface.tsx:145-163 | an error other than an abort puts the apology into the last assistant message; loading always ends and the controller is dropped |
| `ChatClient.ChatInterface.SendMessage` | src/components/chat-interface.tsx:65-166 | a send appends the user message and the assistant message: the streamed text, kept on abort, or the apology on any other error; loading stays on exactly when the stream hangs, and the controller stays live exactly while loading |
| `ChatClient.ChatInterface.HandleSubmit` | src/components/chat-interface.tsx:192-197 | blank input and submissions while loading change nothing; otherwise the input is cleared and its trimmed text is sent after the messages shown, loading staying on with a live controller only while the stream hangs; the first-message flag is never touched |
| `ChatClient.ChatInterface.HandleStop` | src/components/chat-interface.tsx:199-204 | acts only while a controller exists: it aborts the request and ends loading; the input and the first-message flag are untouched |
| `ChatClient.ChatInterface.ProcessInitialMessage` | src/components/chat-interface.tsx:168-190 | on the first run only, a stored first message is removed and, when there are no initial messages and it decodes to non-empty content, sent after no messages; a later run changes nothing; the input is untouched and the flag ends set |
| `NewChatForm.Form.constructor` | src/components/new-chat-form.tsx:16-17 | the form starts with empty input and not loading |
| `NewChatForm.Form.HandleSubmit` | src/components/new-chat-form.tsx:20-42 | blank input or a submission in progress is ignored; otherwise the chat is created with the title, then the trimmed input is stored under the chat's key, then the page navigates and loading stays on; a failure ends loading only |
| `HomeChatInput.ChatInput.constructor` | src/components/home-chat-input.tsx:16-17 | the box starts empty and not loading |
| `HomeChatInput.ChatInput.HandleSubmit` | src/components/home-chat-input.tsx:20-54 | only blank input is ignored; a chat with an id gets the trimmed input stored, then the box cleared, then navigation; any failure, a missing id included, writes nothing, ends loading and shows a toast: the thrown `Error`'s message, the fallback text for any other thrown value, or the missing-id message |
| `HandOff.StoredMessageReadBack` | src/components/new-chat-form.tsx:31-34 | what a form stores for non-blank input is non-empty and decodes on the chat page to the non-empty trimmed input |
| `HandOff.OpenChat` | src/components/chat-interface.tsx:168-190 | the chat page opened on a stored message sends exactly that message once, as the first message, and removes the key |
| `HandOff.FromNewChatForm` | src/components/new-chat-form.tsx:20-42 | after the new-chat form's submission, the chat page sends the trimmed typed text and the storage entry is gone |
| `HandOff.FromHomeChatInput` | src/components/home-chat-input.tsx:20-54 | after the home box's submission, the box is empty, the chat page sends the trimmed typed text and the storage entry is gone |
| `Upload.FileExtFacts` | src/app/api/upload/route.ts:32 | the extension is the name's end after its last dot, and the whole name when it has no dot |
| `Upload.ExtAfterDot` | src/app/api/upload/route.ts:33 | a string ending in a dot and a dot-free extension has that extension |
| `Upload.FilePathExtension` | src/app/api/upload/route.ts:32-33 | the storage path keeps the file's extension, whatever dots the ids hold |
| `Upload.PageContents` | src/app/api/upload/route.ts:92-94 | one text per piece, in order |
| `Upload.BuildRows` | src/app/api/upload/route.ts:97-103 | one row per piece; row `i` pairs piece `i`'s content and metadata with `vectors[i]`, the chat id and the file name |
| `Upload.RowsMatchEmbeddings` | src/app/api/upload/route.ts:92-103 | with one vector per piece, each row's embedding is the vector of that row's own text |
| `Upload.Post` | src/app/api/upload/route.ts:8-117 | 401, then 400 for missing fields, then 400 over 5 MiB, all before any call; storage first, 500 if it fails; tracking never stops processing; the type check comes after storing and tracking; a throwing extractor or embedding gives 500 `Internal Server Error`, a failed insert 500 `Failed to store embeddings`, each with the calls made so far; blank text gives 400; success exactly when every step succeeds, with the calls in order |
| `Upload.Store` | src/app/api/upload/route.ts:31-112 | for an admitted form: the storage call first, 500 if it fails; then the tracking call, whose outcome changes nothing; then the responses of `Process` |
| `Upload.Process` | src/app/api/upload/route.ts:60-112 | an unsupported type gives 400, a throwing extractor 500 and blank text 400, each with no further call; readable text goes on to `Ingest` |
| `Upload.Ingest` | src/app/api/upload/route.ts:79-112 | the pieces' texts are embedded; a throw there gives 500 with no insert; otherwise one row per piece is inserted, and the response is success with the file name, or 500 when the insert fails |
| `Protocol.EventLines` | src/components/chat-interface.tsx:118 | an event written as one line and a blank line splits into that line and two empty ones |
| `Protocol.TrailingLines` | src/components/chat-interface.tsx:120-143 | the two empty lines after an event add nothing |
| `Protocol.ReadDataEvent` | src/components/chat-interface.tsx:117-143 | the page reads a data event as exactly its delta |
| `Protocol.ReadDoneEvent` | src/components/chat-interface.tsx:123-125 | the page reads the `[DONE]` event as nothing |
| `Protocol.ReceivedDataEvents` | src/components/chat-interface.tsx:111-144 | the data events for the deltas read back as their concatenation |
| `Protocol.ReceivedTail` | src/components/chat-interface.tsx:111-144 | what follows the data events (error, or save, `[DONE]` and close) adds nothing to the text read |
| `Protocol.StreamRoundTrip` | src/components/chat-interface.tsx:111-144 | the text the page accumulates from the route's events is the route's `fullContent`, whatever the completion stream does |
| `Protocol.SavedIsShown` | src/app/api/chat/route.ts:188-195 | when the answer completes, the assistant message the route saves is the text the page shows |

## Left out

- Supabase, OpenAI, `createChat`, `pdf-parse-fork` and the text splitter are
  not modelled. Their answers are parameters: whether a call failed, the rows,
  the matches, the vectors, the extracted text, the pieces and the completion
  chunks.
  - Similarity scoring, the 0.1 threshold and the 15-match cap run inside
    the database and are not modelled.
  - No property of chunk size, overlap or reconstruction is claimed.
- The wording of the two system prompts: each prompt is a constructor carrying
  the context and the section count.
- `Date.now` is a parameter. Timers, the clipboard, scrolling and React's state
  and render cycle are not modelled.
  - State updates are applied in order, as if no render intervened.
- JSON is modelled only for the one shape exchanged, `{"content": s}`.
  - Encoding is `JSON.stringify`'s.
  - Decoding accepts the canonical form of that object. Any other payload,
    such as extra fields, whitespace or a non-string `content`, reads as a
    parse failure and is skipped.
  - Lone surrogates are not produced by the model's escaping; `\uXXXX`
    escapes for surrogates are refused.
- Strings are sequences of Unicode code points, not UTF-16 code units.
  `trim` removes ECMAScript's white space and line terminators, the byte
  order mark U+FEFF and U+2028 and U+2029 included.
- Reads: `TextDecoder` byte splits are not modelled. Each read is a given
  string.
  - `Protocol.StreamRoundTrip`: assumes each read carries one whole event as
    the route enqueues it. An event split across reads is not covered.
- `Streaming.ServeOutcome`, `Streaming.PersistOnceAfterStop`,
  `Protocol.StreamRoundTrip` and `Protocol.SavedIsShown` require
  `StopOnlyLast`: only the last chunk carries the stop reason.
  `Streaming.InsertsAtMostStops` covers any chunk sequence.
  - The loop itself (`Streaming.Serve`, `Streaming.Run`) handles every
    sequence. A delta or stop after the close is an enqueue on a closed
    stream, which throws and errors the stream.
- Cancellation on the server is not modelled: the route never observes a
  client abort.
- `req.json()` and `req.formData()` failures are not modelled. The body is
  given already parsed. In the upload route such a failure would be a 500 from
  the outer `catch`.
  - A `file` field that is not a `File` is not modelled either.
- `Upload.Post`: a throw from the splitter is not modelled, because the
  splitter is a total function parameter. Such a throw would give the same 500
  from the outer `catch`.
- `Upload.Post`: the failure of the `chat_files` insert is only logged by the
  route, so whether it succeeds is not among the handler's inputs; the call
  itself is recorded.
- `Upload.Piece`: `metadata` is an opaque string rather than an object.
- `NewChatForm.Form.HandleSubmit`: a chat returned without an `id` is
  modelled as a chat whose id is the empty string.
- `ChatClient.ChatInterface.ConsumeReads` requires the assistant placeholder
  to be the last message. `sendMessage` always appends it just before
  reading, and the model does not interleave other updates.
- `HandOff` covers the chat page opened on the created chat with no earlier
  messages. The route that loads the chat's messages is not part of this
  model.
