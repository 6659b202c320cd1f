/** The retrieval sub-graph: a semantic search over the vector store, a BM25
    search over every stored chunk, and the merge that scores all candidates
    with the cross-encoder, writes the normalised score into each candidate's
    metadata and keeps the best `NR_FINAL_DOCS` by raw score. The vector
    store, the BM25 retriever and the cross-encoder are parameters. */
module RetrievalWorkflow {
  import opened Documents
  import opened Scoring
  import opened Ranking
  import opened StateGraphs

  /** `NR_RETRIEVED_DOCS`: how many documents each search method asks for. */
  const NrRetrievedDocs: nat := 25

  /** One index-aligned row of `collection.query`: the stored text, its
      metadata (possibly missing) and its distance to the query. */
  datatype StoreHit = StoreHit(text: string, metadata: Option<Metadata>, distance: real)

  /** One row of `collection.get`: a stored text and its metadata. */
  datatype StoredChunk = StoredChunk(text: string, metadata: Option<Metadata>)

  /** A document the BM25 retriever returns. */
  datatype Chunk = Chunk(text: string, metadata: Metadata)

  /** The result of the `try` block of the BM25 node: the ranked documents,
      or an exception raised anywhere in fetching, indexing or ranking. */
  datatype LexicalOutcome = Results(results: seq<Chunk>) | Raised

  /** The foreign components the sub-graph calls:
      - `vectorStore(query, n)`: the rows of `collection.query`, nearest first;
      - `stored`: the rows of `collection.get`;
      - `bm25(corpus, query, k)`: `BM25Retriever.from_documents(corpus)` with
        `k` set, invoked on `query`;
      - `crossEncoder(query, text)`: the score `reranker.predict` gives a pair. */
  datatype Retrievers = Retrievers(
    vectorStore: (string, nat) -> seq<StoreHit>,
    stored: seq<StoredChunk>,
    bm25: (seq<Chunk>, string, nat) -> LexicalOutcome,
    crossEncoder: (string, string) -> real)

  /** `RetrievalOutputState`. */
  datatype RetrievalOutput = RetrievalOutput(query: string, retrievedDocuments: seq<Document>)

  /** `[Document(page_content=doc, metadata=meta or {}) ...]` over `collection.get`. */
  function Corpus(stored: seq<StoredChunk>): (corpus: seq<Chunk>)
    ensures |corpus| == |stored|
    ensures forall i :: 0 <= i < |stored| ==>
      corpus[i].text == stored[i].text && corpus[i].metadata == OrEmpty(stored[i].metadata)
  {
    seq(|stored|, i requires 0 <= i < |stored| => Chunk(stored[i].text, OrEmpty(stored[i].metadata)))
  }

  /** The cross-encoder score of every text against the query, index-aligned. */
  function CrossScores(score: (string, string) -> real, query: string, texts: seq<string>): (scores: seq<real>)
    ensures |scores| == |texts|
    ensures forall i :: 0 <= i < |texts| ==> scores[i] == score(query, texts[i])
  {
    seq(|texts|, i requires 0 <= i < |texts| => score(query, texts[i]))
  }

  // ---------------------------------------------------------------------
  // The sub-graph on texts: what it retrieves, stated without objects
  // ---------------------------------------------------------------------

  function HitTexts(hits: seq<StoreHit>): (texts: seq<string>)
    ensures |texts| == |hits| && forall i :: 0 <= i < |hits| ==> texts[i] == hits[i].text
  {
    seq(|hits|, i requires 0 <= i < |hits| => hits[i].text)
  }

  function LexicalTexts(outcome: LexicalOutcome): (texts: seq<string>)
    ensures outcome.Raised? ==> texts == []
    ensures outcome.Results? ==>
      |texts| == |outcome.results| && forall i :: 0 <= i < |texts| ==> texts[i] == outcome.results[i].text
  {
    match outcome
    case Raised => []
    case Results(rs) => seq(|rs|, i requires 0 <= i < |rs| => rs[i].text)
  }

  /** The candidate texts: the semantic hits, then the BM25 hits, duplicates kept. */
  function CandidateTexts(r: Retrievers, query: string): seq<string>
  {
    HitTexts(r.vectorStore(query, NrRetrievedDocs))
      + LexicalTexts(r.bm25(Corpus(r.stored), query, NrRetrievedDocs))
  }

  /** The texts the merge node keeps of the candidate texts `texts`: none
      when there are no candidates, else the top five by cross-encoder score. */
  function TopTexts(crossEncoder: (string, string) -> real, query: string, texts: seq<string>): seq<string>
  {
    if |texts| == 0 then [] else SelectTop(CrossScores(crossEncoder, query, texts), texts)
  }

  /** The texts of `retrieved_documents` after the sub-graph has run. */
  function RetrievedTexts(r: Retrievers, query: string): seq<string>
  {
    TopTexts(r.crossEncoder, query, CandidateTexts(r, query))
  }

  /** At most five texts are retrieved, each a candidate, and exactly
      `min(5, n)` of the `n` candidates. */
  lemma RetrievedTextsBound(r: Retrievers, query: string)
    ensures var n := |CandidateTexts(r, query)|;
      |RetrievedTexts(r, query)| == if n < NrFinalDocs then n else NrFinalDocs
    ensures multiset(RetrievedTexts(r, query)) <= multiset(CandidateTexts(r, query))
  {
    var texts := CandidateTexts(r, query);
    if |texts| > 0 {
      SelectTopSubset(CrossScores(r.crossEncoder, query, texts), texts);
    }
  }

  /** The metadata of the candidates once both searches have run: the
      semantic annotations in store order, then the BM25 annotations in rank
      order. */
  function CandidateMetadata(r: Retrievers, query: string): (ms: seq<Metadata>)
    ensures |ms| == |CandidateTexts(r, query)|
  {
    var hits := r.vectorStore(query, NrRetrievedDocs);
    seq(|hits|, i requires 0 <= i < |hits| => VectorMetadata(hits[i].metadata, hits[i].distance))
      + match r.bm25(Corpus(r.stored), query, NrRetrievedDocs)
        case Raised => []
        case Results(rs) => seq(|rs|, i requires 0 <= i < |rs| => Bm25Metadata(rs[i].metadata, i, |rs|))
  }

  /** The metadata `metas` of the candidate texts `texts` once the merge node
      has written the normalised cross-encoder scores into it. */
  function Rescored(crossEncoder: (string, string) -> real, query: string, texts: seq<string>, metas: seq<Metadata>): (ms: seq<Metadata>)
    requires |metas| == |texts|
    ensures |ms| == |texts|
  {
    if |texts| == 0 then []
    else
      var n := Normalize(CrossScores(crossEncoder, query, texts));
      seq(|texts|, j requires 0 <= j < |texts| => metas[j][CrossEncoderKey := Num(n[j])])
  }

  /** The metadata of the candidates once the merge node has run: each
      candidate's annotation with its normalised cross-encoder score added. */
  function RerankedMetadata(r: Retrievers, query: string): (ms: seq<Metadata>)
    ensures |ms| == |CandidateTexts(r, query)|
  {
    Rescored(r.crossEncoder, query, CandidateTexts(r, query), CandidateMetadata(r, query))
  }

  /** `crossencoder_score` holds a number in [0, 1), and the five score keys
      of the search nodes are present. */
  predicate Reranked(m: Metadata)
  {
    && CrossEncoderKey in m && m[CrossEncoderKey].Num?
    && 0.0 <= m[CrossEncoderKey].r < 1.0
    && ScoreKeys <= m.Keys
  }

  /** After the merge every candidate carries a `crossencoder_score` in
      [0, 1) beside its search annotation. */
  lemma RerankedScoreInRange(r: Retrievers, query: string, j: nat)
    requires j < |CandidateTexts(r, query)|
    ensures Reranked(RerankedMetadata(r, query)[j])
  {
    var texts := CandidateTexts(r, query);
    NormalizeInRange(CrossScores(r.crossEncoder, query, texts), j);
    var hits := r.vectorStore(query, NrRetrievedDocs);
    if j >= |hits| {
      match r.bm25(Corpus(r.stored), query, NrRetrievedDocs)
      case Results(rs) =>
        assert CandidateMetadata(r, query)[j] == Bm25Metadata(rs[j - |hits|].metadata, j - |hits|, |rs|);
    }
  }

  /** The merge adds `crossencoder_score` and changes no other key of the
      search annotation. */
  lemma RerankedKeepsAnnotation(r: Retrievers, query: string, j: nat)
    requires j < |CandidateTexts(r, query)|
    ensures var m, a := RerankedMetadata(r, query)[j], CandidateMetadata(r, query)[j];
      && m.Keys == a.Keys + {CrossEncoderKey}
      && forall k :: k in a && k != CrossEncoderKey ==> m[k] == a[k]
  {
  }

  /** When the cross-encoder scores every candidate alike, each one gets 0.5. */
  lemma RerankedUniform(r: Retrievers, query: string, j: nat)
    requires j < |CandidateTexts(r, query)|
    requires var scores := CrossScores(r.crossEncoder, query, CandidateTexts(r, query));
      forall i :: 0 <= i < |scores| ==> scores[i] == scores[0]
    ensures RerankedMetadata(r, query)[j][CrossEncoderKey] == Num(0.5)
  {
    NormalizeUniform(CrossScores(r.crossEncoder, query, CandidateTexts(r, query)), j);
  }

  /** With non-negative distances, every reranked candidate keeps its vector
      and BM25 scores in [0, 1]. */
  lemma RerankedScoresInUnitRange(r: Retrievers, query: string, j: nat)
    requires j < |CandidateTexts(r, query)|
    requires var hits := r.vectorStore(query, NrRetrievedDocs);
      forall i :: 0 <= i < |hits| ==> hits[i].distance >= 0.0
    ensures ScoresInUnitRange(RerankedMetadata(r, query)[j])
  {
    var hits := r.vectorStore(query, NrRetrievedDocs);
    if j < |hits| {
      AnnotationsInUnitRange(hits[j].metadata, hits[j].distance, map[], 0, 1);
    } else {
      match r.bm25(Corpus(r.stored), query, NrRetrievedDocs)
      case Results(rs) =>
        AnnotationsInUnitRange(None, 0.0, rs[j - |hits|].metadata, j - |hits|, |rs|);
    }
  }

  // ---------------------------------------------------------------------
  // The sub-graph on objects
  // ---------------------------------------------------------------------

  /** The last position before `bound` at which `d` occurs in `docs`. */
  function LastIndexBefore(docs: seq<Document>, d: Document, bound: nat): (k: Option<nat>)
    requires bound <= |docs|
    ensures k.Some? ==>
      k.value < bound && docs[k.value] == d && forall j :: k.value < j < bound ==> docs[j] != d
    ensures k.None? ==> forall j :: 0 <= j < bound ==> docs[j] != d
  {
    if bound == 0 then None
    else if docs[bound - 1] == d then Some(bound - 1)
    else LastIndexBefore(docs, d, bound - 1)
  }

  /** The metadata of `d` after the first `bound` writes of the reranking loop,
      given its metadata `before` them: when the same object occurs several
      times, the last write wins. */
  function MetadataAfterWrites(docs: seq<Document>, normalized: seq<real>, d: Document, before: Metadata, bound: nat): Metadata
    requires bound <= |docs| == |normalized|
  {
    match LastIndexBefore(docs, d, bound)
    case None => before
    case Some(k) => before[CrossEncoderKey := Num(normalized[k])]
  }

  /** One more write changes the metadata of the object written, and of no other. */
  lemma AfterWritesStep(docs: seq<Document>, normalized: seq<real>, d: Document, before: Metadata, i: nat)
    requires i < |docs| == |normalized|
    ensures MetadataAfterWrites(docs, normalized, d, before, i + 1) ==
      if d == docs[i] then MetadataAfterWrites(docs, normalized, d, before, i)[CrossEncoderKey := Num(normalized[i])]
      else MetadataAfterWrites(docs, normalized, d, before, i)
  {
    if d == docs[i] {
      assert LastIndexBefore(docs, d, i + 1) == Some(i);
      match LastIndexBefore(docs, d, i)
      case None =>
      case Some(k) =>
        assert before[CrossEncoderKey := Num(normalized[k])][CrossEncoderKey := Num(normalized[i])]
          == before[CrossEncoderKey := Num(normalized[i])];
    }
  }

  /** `doc.metadata["crossencoder_score"] = float(normalized_scores[i])` for
      every candidate in turn, in place. */
  method WriteScores(docs: seq<Document>, normalized: seq<real>)
    requires |docs| == |normalized|
    modifies docs
    ensures forall j :: 0 <= j < |docs| ==>
      docs[j].metadata == MetadataAfterWrites(docs, normalized, docs[j], old(docs[j].metadata), |docs|)
  {
    for i := 0 to |docs|
      invariant forall j :: 0 <= j < |docs| ==>
        docs[j].metadata == MetadataAfterWrites(docs, normalized, docs[j], old(docs[j].metadata), i)
    {
      docs[i].metadata := docs[i].metadata[CrossEncoderKey := Num(normalized[i])];
      forall j | 0 <= j < |docs|
        ensures docs[j].metadata == MetadataAfterWrites(docs, normalized, docs[j], old(docs[j].metadata), i + 1)
      {
        AfterWritesStep(docs, normalized, docs[j], old(docs[j].metadata), i);
      }
    }
  }

  /** The state the sub-graph's nodes read and write. */
  class RetrievalState {
    var query: string
    var semanticDocs: seq<Document>
    var bm25Docs: seq<Document>
    var retrievedDocuments: seq<Document>

    /** The sub-graph's input state for a query. */
    constructor (query: string)
      ensures this.query == query
      ensures semanticDocs == [] && bm25Docs == [] && retrievedDocuments == []
    {
      this.query := query;
      semanticDocs, bm25Docs, retrievedDocuments := [], [], [];
    }

    /** `semantic_search_node`: one fresh document per store row, in the
        store's order, its metadata the row's metadata with the five score
        keys overridden. */
    method SemanticSearch(vectorStore: (string, nat) -> seq<StoreHit>)
      modifies this
      ensures var hits := vectorStore(query, NrRetrievedDocs);
        && |semanticDocs| == |hits|
        && forall i :: 0 <= i < |hits| ==>
             && semanticDocs[i].pageContent == hits[i].text
             && semanticDocs[i].metadata == VectorMetadata(hits[i].metadata, hits[i].distance)
      ensures forall i :: 0 <= i < |semanticDocs| ==> fresh(semanticDocs[i])
      ensures Distinct(semanticDocs)
      ensures query == old(query) && bm25Docs == old(bm25Docs) && retrievedDocuments == old(retrievedDocuments)
    {
      var hits := vectorStore(query, NrRetrievedDocs);
      var docs: seq<Document> := [];
      for i := 0 to |hits|
        invariant |docs| == i
        invariant forall j :: 0 <= j < i ==>
          && docs[j].pageContent == hits[j].text
          && docs[j].metadata == VectorMetadata(hits[j].metadata, hits[j].distance)
          && fresh(docs[j])
        invariant Distinct(docs)
        invariant query == old(query) && bm25Docs == old(bm25Docs) && retrievedDocuments == old(retrievedDocuments)
      {
        var d := new Document(hits[i].text, VectorMetadata(hits[i].metadata, hits[i].distance));
        docs := docs + [d];
      }
      semanticDocs := docs;
    }

    /** `bm25_search_node`: one fresh document per BM25 result, in rank order,
        its metadata the result's metadata with the five score keys
        overridden; an exception leaves no BM25 documents. */
    method Bm25Search(stored: seq<StoredChunk>, bm25: (seq<Chunk>, string, nat) -> LexicalOutcome)
      modifies this
      ensures match bm25(Corpus(stored), query, NrRetrievedDocs)
        case Raised => bm25Docs == []
        case Results(rs) =>
          && |bm25Docs| == |rs|
          && forall i :: 0 <= i < |rs| ==>
               && bm25Docs[i].pageContent == rs[i].text
               && bm25Docs[i].metadata == Bm25Metadata(rs[i].metadata, i, |rs|)
      ensures forall i :: 0 <= i < |bm25Docs| ==> fresh(bm25Docs[i])
      ensures Distinct(bm25Docs)
      ensures forall i, j :: 0 <= i < |semanticDocs| && 0 <= j < |bm25Docs| ==> semanticDocs[i] != bm25Docs[j]
      ensures query == old(query) && semanticDocs == old(semanticDocs) && retrievedDocuments == old(retrievedDocuments)
    {
      var outcome := bm25(Corpus(stored), query, NrRetrievedDocs);
      match outcome
      case Raised =>
        bm25Docs := [];
      case Results(rs) =>
        var docs: seq<Document> := [];
        for i := 0 to |rs|
          invariant |docs| == i
          invariant forall j :: 0 <= j < i ==>
            && docs[j].pageContent == rs[j].text
            && docs[j].metadata == Bm25Metadata(rs[j].metadata, j, |rs|)
            && fresh(docs[j])
          invariant Distinct(docs)
          invariant query == old(query) && semanticDocs == old(semanticDocs)
          invariant bm25Docs == old(bm25Docs) && retrievedDocuments == old(retrievedDocuments)
        {
          var d := new Document(rs[i].text, Bm25Metadata(rs[i].metadata, i, |rs|));
          docs := docs + [d];
        }
        bm25Docs := docs;
    }

    /** `merge_and_rerank_node`. The candidates are the semantic documents
        followed by the BM25 documents. With none, nothing is retrieved.
        Otherwise every candidate's metadata
        gains the normalised score under `crossencoder_score` and nothing
        else, and the result is the top five candidates by raw score. */
    method MergeAndRerank(crossEncoder: (string, string) -> real, ghost before: seq<Metadata>)
      returns (out: RetrievalOutput)
      requires |before| == |semanticDocs + bm25Docs|
      requires forall j :: 0 <= j < |before| ==> (semanticDocs + bm25Docs)[j].metadata == before[j]
      modifies semanticDocs, bm25Docs
      ensures out.query == query
      ensures var all := semanticDocs + bm25Docs;
        && (|all| == 0 ==> out.retrievedDocuments == [])
        && (|all| > 0 ==>
             var scores := CrossScores(crossEncoder, query, PageContents(all));
             && out.retrievedDocuments == SelectTop(scores, all)
             && forall i :: 0 <= i < |all| ==>
                  all[i].metadata == MetadataAfterWrites(all, Normalize(scores), all[i], before[i], |all|))
    {
      var all := semanticDocs + bm25Docs;
      if |all| == 0 {
        return RetrievalOutput(query, []);
      }
      var scores := CrossScores(crossEncoder, query, PageContents(all));
      WriteScores(all, Normalize(scores));
      out := RetrievalOutput(query, SelectTop(scores, all));
    }

    /** The two search nodes, in the order of the sub-graph's edges: the
        candidates are fresh, distinct documents carrying the candidate texts. */
    method Search(r: Retrievers)
      modifies this
      ensures query == old(query) && retrievedDocuments == old(retrievedDocuments)
      ensures PageContents(semanticDocs + bm25Docs) == CandidateTexts(r, query)
      ensures Distinct(semanticDocs + bm25Docs)
      ensures forall i :: 0 <= i < |semanticDocs| ==> fresh(semanticDocs[i])
      ensures forall i :: 0 <= i < |bm25Docs| ==> fresh(bm25Docs[i])
      ensures forall i :: 0 <= i < |semanticDocs + bm25Docs| ==> fresh((semanticDocs + bm25Docs)[i])
      ensures forall j :: 0 <= j < |semanticDocs + bm25Docs| ==>
        (semanticDocs + bm25Docs)[j].metadata == CandidateMetadata(r, query)[j]
    {
      SemanticSearch(r.vectorStore);
      Bm25Search(r.stored, r.bm25);
      DistinctAppend(semanticDocs, bm25Docs);
      CandidatesAreTexts(r, query, semanticDocs, bm25Docs);
      CandidatesAreAnnotated(r, query, semanticDocs, bm25Docs);
    }

    /** The compiled sub-graph run on this state: the searches, then the
        merge, which writes `retrieved_documents`. The texts retrieved are
        those of the pure model, every document retrieved is a candidate, every
        candidate's metadata is its search annotation plus its normalised
        score, and every document retrieved carries a `crossencoder_score` in
        [0, 1) beside the five score keys. */
    method Run(r: Retrievers) returns (out: RetrievalOutput)
      modifies this
      ensures out.query == old(query) && query == old(query)
      ensures PageContents(semanticDocs + bm25Docs) == CandidateTexts(r, old(query))
      ensures PageContents(out.retrievedDocuments) == RetrievedTexts(r, old(query))
      ensures |semanticDocs + bm25Docs| == 0 ==> out.retrievedDocuments == []
      ensures |semanticDocs + bm25Docs| > 0 ==>
        out.retrievedDocuments == SelectTop(CrossScores(r.crossEncoder, old(query), CandidateTexts(r, old(query))), semanticDocs + bm25Docs)
      ensures retrievedDocuments == out.retrievedDocuments
      ensures Distinct(semanticDocs + bm25Docs)
      ensures forall i :: 0 <= i < |semanticDocs + bm25Docs| ==> fresh((semanticDocs + bm25Docs)[i])
      ensures forall i :: 0 <= i < |out.retrievedDocuments| ==> out.retrievedDocuments[i] in semanticDocs + bm25Docs
      ensures forall j :: 0 <= j < |semanticDocs + bm25Docs| ==>
        (semanticDocs + bm25Docs)[j].metadata == RerankedMetadata(r, old(query))[j]
      ensures forall i :: 0 <= i < |out.retrievedDocuments| ==> Reranked(out.retrievedDocuments[i].metadata)
    {
      Search(r);
      out := MergeStep(r.crossEncoder, CandidateTexts(r, query), CandidateMetadata(r, query));
      RetrievedReranked(r, query, semanticDocs + bm25Docs, out.retrievedDocuments);
      retrievedDocuments := out.retrievedDocuments;
    }

    /** The merge node on distinct candidates carrying the texts `texts` and
        the metadata `metas`; the runtime then writes its `retrieved_documents`
        into the state. */
    method MergeStep(crossEncoder: (string, string) -> real, ghost texts: seq<string>, ghost metas: seq<Metadata>)
      returns (out: RetrievalOutput)
      requires PageContents(semanticDocs + bm25Docs) == texts && |metas| == |texts|
      requires Distinct(semanticDocs + bm25Docs)
      requires forall j :: 0 <= j < |semanticDocs + bm25Docs| ==> (semanticDocs + bm25Docs)[j].metadata == metas[j]
      modifies semanticDocs, bm25Docs
      ensures out.query == query
      ensures |texts| == 0 ==> out.retrievedDocuments == []
      ensures |texts| > 0 ==>
        out.retrievedDocuments == SelectTop(CrossScores(crossEncoder, query, texts), semanticDocs + bm25Docs)
      ensures PageContents(out.retrievedDocuments) == TopTexts(crossEncoder, query, texts)
      ensures forall i :: 0 <= i < |out.retrievedDocuments| ==> out.retrievedDocuments[i] in semanticDocs + bm25Docs
      ensures forall j :: 0 <= j < |semanticDocs + bm25Docs| ==>
        (semanticDocs + bm25Docs)[j].metadata == Rescored(crossEncoder, query, texts, metas)[j]
    {
      ghost var all := semanticDocs + bm25Docs;
      out := MergeAndRerank(crossEncoder, metas);
      MergedTexts(crossEncoder, query, texts, all, out.retrievedDocuments);
      MergedMetadata(crossEncoder, query, texts, metas, all);
    }
  }

  /** The texts of the candidate documents are the candidate texts of the
      pure model. */
  lemma CandidatesAreTexts(r: Retrievers, query: string, sem: seq<Document>, bm: seq<Document>)
    requires var hits := r.vectorStore(query, NrRetrievedDocs);
      |sem| == |hits| && forall i :: 0 <= i < |hits| ==> sem[i].pageContent == hits[i].text
    requires match r.bm25(Corpus(r.stored), query, NrRetrievedDocs)
      case Raised => bm == []
      case Results(rs) => |bm| == |rs| && forall i :: 0 <= i < |rs| ==> bm[i].pageContent == rs[i].text
    ensures PageContents(sem + bm) == CandidateTexts(r, query)
  {
    var all := sem + bm;
    assert forall i :: |sem| <= i < |all| ==> all[i] == bm[i - |sem|];
  }

  /** The metadata of the candidate documents is the candidate metadata of
      the pure model. */
  lemma CandidatesAreAnnotated(r: Retrievers, query: string, sem: seq<Document>, bm: seq<Document>)
    requires var hits := r.vectorStore(query, NrRetrievedDocs);
      |sem| == |hits| && forall i :: 0 <= i < |hits| ==> sem[i].metadata == VectorMetadata(hits[i].metadata, hits[i].distance)
    requires match r.bm25(Corpus(r.stored), query, NrRetrievedDocs)
      case Raised => bm == []
      case Results(rs) => |bm| == |rs| && forall i :: 0 <= i < |rs| ==> bm[i].metadata == Bm25Metadata(rs[i].metadata, i, |rs|)
    ensures forall j :: 0 <= j < |sem + bm| ==> (sem + bm)[j].metadata == CandidateMetadata(r, query)[j]
  {
    var all := sem + bm;
    assert forall i :: |sem| <= i < |all| ==> all[i] == bm[i - |sem|];
  }

  /** What the merge node retrieves from candidates carrying the texts
      `texts`: the texts the pure model keeps, each document a candidate. */
  lemma MergedTexts(crossEncoder: (string, string) -> real, query: string, texts: seq<string>, all: seq<Document>, top: seq<Document>)
    requires PageContents(all) == texts
    requires |all| == 0 ==> top == []
    requires |all| > 0 ==> top == SelectTop(CrossScores(crossEncoder, query, PageContents(all)), all)
    ensures PageContents(top) == TopTexts(crossEncoder, query, texts)
    ensures forall i :: 0 <= i < |top| ==> top[i] in all
  {
    if |all| > 0 {
      SelectTopTexts(all, CrossScores(crossEncoder, query, PageContents(all)));
    }
  }

  /** Once the reranking loop has run over distinct candidates carrying the
      texts `texts` and the metadata `metas`, each carries its entry of the
      rescored metadata. */
  lemma MergedMetadata(crossEncoder: (string, string) -> real, query: string, texts: seq<string>, metas: seq<Metadata>, all: seq<Document>)
    requires Distinct(all) && PageContents(all) == texts && |metas| == |texts|
    requires |all| > 0 ==> forall j :: 0 <= j < |all| ==>
      all[j].metadata == MetadataAfterWrites(all, Normalize(CrossScores(crossEncoder, query, PageContents(all))),
                                             all[j], metas[j], |all|)
    ensures forall j :: 0 <= j < |all| ==> all[j].metadata == Rescored(crossEncoder, query, texts, metas)[j]
  {
    if |all| > 0 {
      var n := Normalize(CrossScores(crossEncoder, query, PageContents(all)));
      forall j | 0 <= j < |all| ensures all[j].metadata == Rescored(crossEncoder, query, texts, metas)[j] {
        WrittenScore(all, n, j, metas[j]);
      }
    }
  }

  /** Every document the merge keeps carries a `crossencoder_score` in [0, 1)
      beside the five score keys. */
  lemma RetrievedReranked(r: Retrievers, query: string, all: seq<Document>, top: seq<Document>)
    requires |all| == |CandidateTexts(r, query)|
    requires forall j :: 0 <= j < |all| ==> all[j].metadata == RerankedMetadata(r, query)[j]
    requires forall i :: 0 <= i < |top| ==> top[i] in all
    ensures forall i :: 0 <= i < |top| ==> Reranked(top[i].metadata)
  {
    forall i | 0 <= i < |top| ensures Reranked(top[i].metadata) {
      var j :| 0 <= j < |all| && all[j] == top[i];
      RerankedScoreInRange(r, query, j);
    }
  }

  /** Ranking the documents and taking their texts is ranking their texts;
      every document selected is a candidate. */
  lemma SelectTopTexts(all: seq<Document>, scores: seq<real>)
    requires |scores| == |all|
    ensures PageContents(SelectTop(scores, all)) == SelectTop(scores, PageContents(all))
    ensures forall i :: 0 <= i < |SelectTop(scores, all)| ==> SelectTop(scores, all)[i] in all
  {
    var f := (d: Document) => d.pageContent;
    assert MapSeq(f, all) == PageContents(all);
    SelectTopMap(f, scores, all);
    var top := SelectTop(scores, all);
    assert PageContents(top) == MapSeq(f, top);
    SelectTopSubset(scores, all);
    forall i | 0 <= i < |top| ensures top[i] in all {
      assert top[i] in multiset(top);
    }
  }

  /** Once the reranking loop has run, a document that occurs once among the
      candidates carries its own normalised score. */
  lemma WrittenScore(docs: seq<Document>, normalized: seq<real>, i: nat, before: Metadata)
    requires Distinct(docs) && i < |docs| == |normalized|
    ensures MetadataAfterWrites(docs, normalized, docs[i], before, |docs|) == before[CrossEncoderKey := Num(normalized[i])]
  {
    assert LastIndexBefore(docs, docs[i], |docs|) == Some(i);
  }

  /** The sub-graph as built by `retrieval_graph.add_node` / `add_edge`. */
  method BuildRetrievalGraph() returns (g: Graph)
    ensures g == RetrievalGraph()
  {
    var b := new StateGraph();
    b.AddNode("semantic_search");
    b.AddNode("bm25_search");
    b.AddNode("merge_and_rerank");
    b.AddEdge(Start, Named("semantic_search"));
    b.AddEdge(Named("semantic_search"), Named("bm25_search"));
    b.AddEdge(Named("bm25_search"), Named("merge_and_rerank"));
    b.AddEdge(Named("merge_and_rerank"), End);
    g := b.Compile();
  }

  function RetrievalGraph(): Graph
  {
    Graph({"semantic_search", "bm25_search", "merge_and_rerank"},
          [(Start, Named("semantic_search")),
           (Named("semantic_search"), Named("bm25_search")),
           (Named("bm25_search"), Named("merge_and_rerank")),
           (Named("merge_and_rerank"), End)],
          map[])
  }

  /** How many steps remain from each node of the sub-graph. */
  function RetrievalRank(n: Node): nat
  {
    match n
    case Start => 4
    case End => 0
    case Named(x) => if x == "semantic_search" then 3 else if x == "bm25_search" then 2 else 1
  }

  /** The routing step at each node of the sub-graph, whatever the label. */
  lemma RetrievalGraphSteps(route: string)
    ensures Next(RetrievalGraph(), Start, route) == Go(Named("semantic_search"))
    ensures Next(RetrievalGraph(), Named("semantic_search"), route) == Go(Named("bm25_search"))
    ensures Next(RetrievalGraph(), Named("bm25_search"), route) == Go(Named("merge_and_rerank"))
    ensures Next(RetrievalGraph(), Named("merge_and_rerank"), route) == Go(End)
  {
    var e := RetrievalGraph().edges;
    assert e[0].0 == Start;
    assert e[1].0 == Named("semantic_search") && e[0].0 != Named("semantic_search");
    assert e[2].0 == Named("bm25_search") && e[1].0 != Named("bm25_search") && e[0].0 != Named("bm25_search");
    assert FirstTarget(e, Named("bm25_search")) == FirstTarget(e[1..], Named("bm25_search"));
    assert e[2].0 != Named("merge_and_rerank") && e[1].0 != Named("merge_and_rerank");
  }

  /** The sub-graph has no cycle. */
  lemma RetrievalGraphRanked()
    ensures Ranked(RetrievalGraph(), RetrievalRank)
  {
    var g := RetrievalGraph();
    forall n, l | n != End && Next(g, n, l).Go?
      ensures RetrievalRank(Next(g, n, l).next) < RetrievalRank(n)
    {
      var i :| 0 <= i < |g.edges| && g.edges[i] == (n, Next(g, n, l).next);
      assert i == 0 || i == 1 || i == 2 || i == 3;
    }
  }

  /** Every run executes the semantic search, the BM25 search and the
      merge, once each and in that order, and ends. */
  lemma RetrievalGraphOrder(route: string)
    ensures Ranked(RetrievalGraph(), RetrievalRank)
    ensures Run(RetrievalGraph(), RetrievalRank, Start, route)
      == Finished(["semantic_search", "bm25_search", "merge_and_rerank"])
  {
    RetrievalGraphRanked();
    RetrievalGraphSteps(route);
    RunPath3(RetrievalGraph(), RetrievalRank, route, "semantic_search", "bm25_search", "merge_and_rerank");
  }
}
