/** The system-prompt choice of the chat route and the message list sent to
    the completion endpoint. The wording of the two prompts is not modelled:
    each is a constructor carrying what the route interpolates into it. */
module Prompt {
  import opened Wire
  import opened Retrieval

  /** The document prompt embeds the context and the section count; the other
      prompt says that no document has been found. */
  datatype SystemPrompt = DocumentsPrompt(context: string, sections: nat) | NoDocumentsPrompt

  /** One entry of the completion request's `messages`. */
  datatype CompletionMessage = SystemMessage(prompt: SystemPrompt) | TurnMessage(role: string, content: string)

  /** `contextText ? <documents prompt> : <no-documents prompt>`. */
  function ChoosePrompt(contextText: string, documentsFound: nat): SystemPrompt
  {
    if contextText != "" then DocumentsPrompt(contextText, documentsFound) else NoDocumentsPrompt
  }

  /** Each request message as a completion turn with the same role and content. */
  function Turns(messages: seq<WireMessage>): (r: seq<CompletionMessage>)
    ensures |r| == |messages|
    ensures forall i :: 0 <= i < |messages| ==> r[i] == TurnMessage(messages[i].role, messages[i].content)
  {
    if messages == [] then [] else [TurnMessage(messages[0].role, messages[0].content)] + Turns(messages[1..])
  }

  /** The completion request: the system message, then every message of the
      request body in its original order, the assistant ones included. */
  function CompletionMessages(prompt: SystemPrompt, messages: seq<WireMessage>): (r: seq<CompletionMessage>)
    ensures |r| == |messages| + 1 && r[0] == SystemMessage(prompt)
    ensures forall i :: 0 <= i < |messages| ==> r[i + 1] == TurnMessage(messages[i].role, messages[i].content)
  {
    [SystemMessage(prompt)] + Turns(messages)
  }

  /** The grounded prompt is chosen exactly when retrieval produced non-empty
      text, and it then carries that text and the number of sections found. */
  lemma PromptFollowsRetrieval(messages: seq<WireMessage>, fetch: Fetch, semantic: Semantic)
    ensures var r := Retrieve(messages, fetch, semantic);
      var p := ChoosePrompt(r.contextText, r.documentsFound);
      && (p.DocumentsPrompt? <==> r.contextText != "")
      && (p.DocumentsPrompt? ==> p.context == r.contextText && p.sections == r.documentsFound && p.sections > 0)
  {
    var r := Retrieve(messages, fetch, semantic);
    if r.contextText != "" {
      ContextEmptyIff(messages, fetch, semantic);
    }
  }

  /** A chat without documents always gets the no-documents prompt, whatever
      the question and whatever the search would have said. */
  lemma NoDocumentsNoGrounding(messages: seq<WireMessage>, semantic: Semantic)
    ensures var r := Retrieve(messages, Fetched([]), semantic);
      ChoosePrompt(r.contextText, r.documentsFound) == NoDocumentsPrompt
  {
  }

  /** A chat whose only document is one non-empty chunk grounds a user question
      on exactly that chunk, counted as one section, whether the search finds
      it or the fallback supplies it. */
  lemma SingleChunkGrounding(messages: seq<WireMessage>, chunk: Doc, semantic: Semantic)
    requires TrailingUserMessage(messages).Some? && chunk.content != ""
    requires SemanticHit(semantic) ==> semantic.docs == [chunk]
    ensures var r := Retrieve(messages, Fetched([chunk]), semantic);
      ChoosePrompt(r.contextText, r.documentsFound) == DocumentsPrompt(chunk.content, 1)
  {
    assert Limited([chunk]) == [chunk];
    assert Contents([chunk]) == [chunk.content];
  }
}
