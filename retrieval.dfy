/** The retrieval step of the chat route: which document text becomes the
    model's context. The document table, the embedding call and the
    `match_documents` search are oracles whose answers are parameters. */
module Retrieval {
  import opened Wrappers
  import opened Text
  import opened Wire

  /** A stored chunk as the route selects it: `content, file_name`. */
  datatype Doc = Doc(content: string, fileName: string)

  /** Answer of the query for the chat's documents, before the route's limit
      of 100 rows: an error, or the chat's rows in store order. */
  datatype Fetch = FetchError | Fetched(rows: seq<Doc>)

  /** Outcome of the semantic search: the query embedding (or the call
      itself) threw, the search reported an error, or it returned matches. */
  datatype Semantic = EmbeddingThrew | SearchError | Matches(docs: seq<Doc>)

  /** The route's locals `contextText` and `documentsFound` after retrieval. */
  datatype Retrieved = Retrieved(contextText: string, documentsFound: nat)

  const FetchLimit: nat := 100
  const Separator: string := "\n\n"

  /** The rows the limited query returns. */
  function Limited(rows: seq<Doc>): (r: seq<Doc>)
    ensures |r| <= FetchLimit && r <= rows
    ensures |r| == if |rows| <= FetchLimit then |rows| else FetchLimit
    ensures |r| == 0 <==> |rows| == 0
  {
    if |rows| <= FetchLimit then rows else rows[..FetchLimit]
  }

  /** The documents' contents, in order. */
  function Contents(docs: seq<Doc>): (r: seq<string>)
    ensures |r| == |docs|
    ensures forall i :: 0 <= i < |docs| ==> r[i] == docs[i].content
  {
    if docs == [] then [] else [docs[0].content] + Contents(docs[1..])
  }

  /** Whether the search produced something usable. */
  predicate SemanticHit(semantic: Semantic) {
    semantic.Matches? && |semantic.docs| > 0
  }

  /** The three-way choice: no context without a trailing user message, on a
      fetch error or with no documents; the search results when the search
      found any; otherwise every fetched document. */
  function Retrieve(messages: seq<WireMessage>, fetch: Fetch, semantic: Semantic): (r: Retrieved)
    ensures TrailingUserMessage(messages).None? || fetch.FetchError? || |fetch.rows| == 0
            ==> r == Retrieved("", 0)
    ensures TrailingUserMessage(messages).Some? && fetch.Fetched? && |fetch.rows| > 0 && SemanticHit(semantic)
            ==> r == Retrieved(Join(Contents(semantic.docs), Separator), |semantic.docs|)
    ensures TrailingUserMessage(messages).Some? && fetch.Fetched? && |fetch.rows| > 0 && !SemanticHit(semantic)
            ==> r == Retrieved(Join(Contents(Limited(fetch.rows)), Separator), |Limited(fetch.rows)|)
    ensures r.documentsFound > 0 <==> TrailingUserMessage(messages).Some? && fetch.Fetched? && |fetch.rows| > 0
    ensures !SemanticHit(semantic) ==> r.documentsFound <= FetchLimit
  {
    if TrailingUserMessage(messages).None? then Retrieved("", 0)
    else match fetch
      case FetchError => Retrieved("", 0)
      case Fetched(rows) =>
        var all := Limited(rows);
        if |all| == 0 then Retrieved("", 0)
        else if SemanticHit(semantic) then Retrieved(Join(Contents(semantic.docs), Separator), |semantic.docs|)
        else Retrieved(Join(Contents(all), Separator), |all|)
  }

  /** The context is empty exactly when there is nothing to retrieve, or the
      chosen documents consist of a single document with empty content: two or
      more documents always leave a separator behind. */
  lemma ContextEmptyIff(messages: seq<WireMessage>, fetch: Fetch, semantic: Semantic)
    ensures var r := Retrieve(messages, fetch, semantic);
      r.contextText == ""
      <==> (|| TrailingUserMessage(messages).None? || fetch.FetchError? || |fetch.rows| == 0
            || (SemanticHit(semantic) && |semantic.docs| == 1 && semantic.docs[0].content == "")
            || (!SemanticHit(semantic) && |Limited(fetch.rows)| == 1 && fetch.rows[0].content == ""))
  {
    if TrailingUserMessage(messages).Some? && fetch.Fetched? && |fetch.rows| > 0 {
      if SemanticHit(semantic) {
        JoinEmptyIff(Contents(semantic.docs), Separator);
      } else {
        JoinEmptyIff(Contents(Limited(fetch.rows)), Separator);
      }
    }
  }
}
