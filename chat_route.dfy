/** `POST /api/chat`: authentication, the rate limiter, saving the user's
    message, retrieval, the prompt choice and the streamed answer, in the
    route's order. Authentication, the database and the model endpoints are
    oracles whose answers are parameters. */
module ChatRoute {
  import opened Wrappers
  import opened Wire
  import opened RateLimit
  import opened Retrieval
  import opened Prompt
  import opened Streaming

  /** The calls the route makes before it returns the stream. */
  datatype Effect =
    | InsertUserMessage(chatId: string, content: string)
    | FetchDocuments(chatId: string)
    | EmbedQuery(query: string)
    | MatchDocuments(chatId: string)
    | RequestCompletion(messages: seq<CompletionMessage>)

  /** What the completion endpoint answers to the streaming request: it
      rejects the request, or it streams these chunks. */
  datatype Completion = CreateRejected | Streaming(chunks: seq<Chunk>)

  /** A plain-text response with its status, the `text/event-stream`
      response given by what its producer does, or the handler throwing,
      which the framework answers with status 500. */
  datatype ChatResponse = PlainResponse(status: nat, text: string) | EventStream(actions: seq<StreamAction>) | HandlerThrew

  const UnauthorizedText: string := "Unauthorized"
  const RateLimitedText: string := "Rate limit exceeded. Please try again later."

  /** Whether the route looks for documents: the body ends with a user message. */
  predicate EndsWithUser(messages: seq<WireMessage>) {
    |messages| > 0 && messages[|messages| - 1].role == "user"
  }

  /** The completion request the route sends for an admitted request. */
  function CompletionRequest(body: ChatRequest, fetch: Fetch, semantic: Semantic): Effect
  {
    var r := Retrieve(body.messages, fetch, semantic);
    RequestCompletion(CompletionMessages(ChoosePrompt(r.contextText, r.documentsFound), body.messages))
  }

  /** The database and embedding calls of an admitted request, in order. */
  function LookupEffects(body: ChatRequest, fetch: Fetch, semantic: Semantic): (effects: seq<Effect>)
  {
    var last := TrailingUserMessage(body.messages);
    var found := last.Some? && fetch.Fetched? && |fetch.rows| > 0;
    (if last.Some? then [InsertUserMessage(body.chatId, last.value.content), FetchDocuments(body.chatId)] else [])
    + (if found then [EmbedQuery(last.value.content)] else [])
    + (if found && !semantic.EmbeddingThrew? then [MatchDocuments(body.chatId)] else [])
  }

  /** The route's effects for an admitted request, in order. */
  function AdmittedEffects(body: ChatRequest, fetch: Fetch, semantic: Semantic): (effects: seq<Effect>)
  {
    LookupEffects(body, fetch, semantic) + [CompletionRequest(body, fetch, semantic)]
  }

  /** The four runs of an admitted request's lookups: no user message to
      answer; a user message and no documents; documents whose query
      embedding threw; documents, an embedded query and a match. */
  lemma LookupEffectsShape(body: ChatRequest, fetch: Fetch, semantic: Semantic)
    ensures var effects := LookupEffects(body, fetch, semantic);
      var m := body.messages;
      var found := fetch.Fetched? && |fetch.rows| > 0;
      && (!EndsWithUser(m) ==> effects == [])
      && (EndsWithUser(m) ==>
            var insert, read := InsertUserMessage(body.chatId, m[|m| - 1].content), FetchDocuments(body.chatId);
            var embed := EmbedQuery(m[|m| - 1].content);
            && (!found ==> effects == [insert, read])
            && (found && semantic.EmbeddingThrew? ==> effects == [insert, read, embed])
            && (found && !semantic.EmbeddingThrew? ==> effects == [insert, read, embed, MatchDocuments(body.chatId)]))
  {
  }

  /** The user's message is saved exactly once, only when the last message of
      the body has role user, and before the documents are read; the
      completion request comes last. */
  lemma AdmittedEffectsOrder(body: ChatRequest, fetch: Fetch, semantic: Semantic)
    ensures var effects := AdmittedEffects(body, fetch, semantic);
      var m := body.messages;
      && |effects| >= 1 && effects[|effects| - 1].RequestCompletion?
      && (EndsWithUser(m) <==> effects[0].InsertUserMessage?)
      && (EndsWithUser(m) ==>
            effects[0] == InsertUserMessage(body.chatId, m[|m| - 1].content)
            && effects[1] == FetchDocuments(body.chatId))
      && (forall i :: 0 < i < |effects| ==> !effects[i].InsertUserMessage?)
  {
    LookupEffectsShape(body, fetch, semantic);
  }

  /** Among the lookups, the query is embedded, with the user's message,
      exactly when documents exist. */
  lemma SearchEffectsOrder(body: ChatRequest, fetch: Fetch, semantic: Semantic)
    ensures var effects := LookupEffects(body, fetch, semantic);
      var m := body.messages;
      && ((exists i :: 0 <= i < |effects| && effects[i].EmbedQuery?)
          <==> EndsWithUser(m) && fetch.Fetched? && |fetch.rows| > 0)
      && (forall i :: 0 <= i < |effects| && effects[i].EmbedQuery? ==> effects[i].query == m[|m| - 1].content)
  {
    LookupEffectsShape(body, fetch, semantic);
    var effects := LookupEffects(body, fetch, semantic);
    if EndsWithUser(body.messages) && fetch.Fetched? && |fetch.rows| > 0 {
      assert effects[2].EmbedQuery?;
    }
  }

  /** Among the lookups, the match runs exactly when documents exist and the
      query embedding succeeded, and right after that embedding. */
  lemma MatchEffectsOrder(body: ChatRequest, fetch: Fetch, semantic: Semantic)
    ensures var effects := LookupEffects(body, fetch, semantic);
      && ((exists i :: 0 <= i < |effects| && effects[i].MatchDocuments?)
          <==> EndsWithUser(body.messages) && fetch.Fetched? && |fetch.rows| > 0 && !semantic.EmbeddingThrew?)
      && (forall i :: 0 <= i < |effects| && effects[i].MatchDocuments? ==> i == 3 && effects[2].EmbedQuery?)
  {
    LookupEffectsShape(body, fetch, semantic);
    var effects := LookupEffects(body, fetch, semantic);
    if EndsWithUser(body.messages) && fetch.Fetched? && |fetch.rows| > 0 && !semantic.EmbeddingThrew? {
      assert effects[3].MatchDocuments?;
    }
  }

  /** The request handler. `user` is the authenticated user id, `now` the
      clock, `body` the parsed JSON body, `fetch` and `semantic` what the
      document query and the semantic search answer, `completion` what the
      completion endpoint answers. */
  method Post(limiter: RateLimiter, user: Option<string>, now: int, body: ChatRequest,
              fetch: Fetch, semantic: Semantic, completion: Completion)
    returns (response: ChatResponse, effects: seq<Effect>)
    requires limiter.Valid()
    modifies limiter
    ensures limiter.Valid()
    ensures user.None? ==> response == PlainResponse(401, UnauthorizedText) && effects == [] && limiter.windows == old(limiter.windows)
    ensures user.Some? ==> limiter.windows == Decide(old(limiter.windows), user.value, now).1
    ensures user.Some? && !Decide(old(limiter.windows), user.value, now).0
            ==> response == PlainResponse(429, RateLimitedText) && effects == []
    ensures user.Some? && Decide(old(limiter.windows), user.value, now).0
            ==> && effects == AdmittedEffects(body, fetch, semantic)
                && (completion.CreateRejected? ==> response == HandlerThrew)
                && (completion.Streaming? ==> response == EventStream(Run(completion.chunks).actions))
  {
    if user.None? {
      return PlainResponse(401, UnauthorizedText), [];
    }
    var allowed := limiter.Check(user.value, now);
    if !allowed {
      return PlainResponse(429, RateLimitedText), [];
    }
    response, effects := Answer(body, fetch, semantic, completion);
  }

  /** The rest of the handler once the request is admitted: save the user's
      message, retrieve, choose the prompt, request the completion and stream
      it back. A rejected completion request is not caught: the user's
      message is already saved when the handler throws. */
  method Answer(body: ChatRequest, fetch: Fetch, semantic: Semantic, completion: Completion)
    returns (response: ChatResponse, effects: seq<Effect>)
    ensures effects == AdmittedEffects(body, fetch, semantic)
    ensures completion.CreateRejected? ==> response == HandlerThrew
    ensures completion.Streaming? ==> response == EventStream(Run(completion.chunks).actions)
  {
    effects := Lookups(body, fetch, semantic);
    var r := Retrieve(body.messages, fetch, semantic);
    var prompt := ChoosePrompt(r.contextText, r.documentsFound);
    effects := effects + [RequestCompletion(CompletionMessages(prompt, body.messages))];
    if completion.CreateRejected? {
      return HandlerThrew, effects;
    }
    var fullContent, actions := Serve(completion.chunks);
    response := EventStream(actions);
  }

  /** Save the user's message, read the chat's documents and, when there are
      any, embed the query and match it. */
  method Lookups(body: ChatRequest, fetch: Fetch, semantic: Semantic) returns (effects: seq<Effect>)
    ensures effects == LookupEffects(body, fetch, semantic)
  {
    effects := [];
    var last := TrailingUserMessage(body.messages);
    if last.Some? {
      effects := effects + [InsertUserMessage(body.chatId, last.value.content)];
    }
    var search: seq<Effect> := [];
    if last.Some? {
      effects := effects + [FetchDocuments(body.chatId)];
      if fetch.Fetched? && |Limited(fetch.rows)| > 0 {
        search := search + [EmbedQuery(last.value.content)];
        if !semantic.EmbeddingThrew? {
          search := search + [MatchDocuments(body.chatId)];
        }
      }
    }
    effects := effects + search;
  }
}
