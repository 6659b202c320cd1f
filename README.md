# rag_wpp core in Dafny

rag_wpp answers questions about the UN World Population Prospects report with
retrieval-augmented generation. This project models its core in Dafny and proves
properties of that model.

- **Ingestion** (`ingest/chunk_documents.py`). Each Markdown file is cut at its
  `images={` marker. It becomes summary-prefixed chunk records, each with an id
  `stem_chunk_i` and metadata `{source, chunk_index}`. The records are added to
  the vector collection, and a running total counts them.
- **Retrieval sub-graph** (`retrieval/retrieval_workflow.py`). A semantic search
  over the vector store and a BM25 search over every stored chunk each annotate
  their hits with per-method scores. The merge node then:
  - scores every candidate with the cross-encoder;
  - writes the min-max normalised score into each candidate's metadata, in place;
  - keeps the best five by raw score, using a stable sort.
- **Main workflow** (`retrieval/main_workflow.py`). A triage call to the language
  model labels the query. `OUT_OF_SCOPE` gets a fixed refusal. `DATA_QUESTION`
  runs the retrieval sub-graph, then asks the language model for an answer from
  the retrieved context: the texts joined by blank lines.
- **Driver** (`main.py`). The generated list of questions is split into lines.
  Blank lines are dropped and each line loses its numbering. Then each question
  is run through the workflow.

The modules follow that structure:

| module | contents |
|---|---|
| `Documents` | metadata values and the `Document` object |
| `Text` | `join`, `split`, `strip`, substring search, `str(n)` |
| `Scoring` | per-method scores, metadata annotation, the normalisation |
| `Ranking` | stable descending sort and top-K |
| `StateGraphs` | LangGraph's `StateGraph` builder and its routing machine |
| `RetrievalWorkflow` | the retrieval sub-graph |
| `MainWorkflow` | the main workflow |
| `ChunkDocuments` | ingestion |
| `Questions` | the driver |

Foreign components are function parameters:

- the language model, `query_ai`: a function of the system prompt and the user
  prompt;
- the vector store: a function from the query and the result count to rows of
  text, metadata and distance;
- the stored chunks: a sequence;
- the BM25 retriever: a function from corpus, query and `k` to a ranked result
  list or an exception;
- the cross-encoder: a function from the query and a text to a real;
- Markdown rendering, the summariser and the text splitter: functions.

State that the source changes in place is kept in classes:

- the workflow states (`QueryState`, `RetrievalState`);
- the documents whose metadata the merge node rewrites;
- the graph builder;
- the Chroma collection.

LangGraph's runtime is modelled as follows:

- The compiled graph is a value.
- The routing step looks up a conditional edge's path map, or else takes the first
  plain edge.
- `invoke` executes nodes and routes in a loop, until `END`, an unrouted label or
  a node with no edge.

Two behaviours of the code are worth spelling out:

- **Unknown triage labels.** The path map in `retrieval/main_workflow.py:111-118`
  has only the two labels. LangGraph raises on any other one, so the model
  returns an explicit `NoRouteFor` reply, and the question loop ends there.
- **Where the normalised score goes.** The merge node writes it into each
  candidate document's metadata under `crossencoder_score`, in place.

## Model

| member | source | states |
|---|---|---|
| Documents.OrEmpty | retrieval/retrieval_workflow.py:77 | a missing metadata dictionary becomes the empty one, a present one is kept |
| Documents.PageContents | retrieval/retrieval_workflow.py:143 | the texts of the documents, index by index, same length |
| Documents.DistinctAppend | retrieval/retrieval_workflow.py:138 | two lists of distinct objects with nothing in common concatenate to a list of distinct objects |
| Text.Join | retrieval/main_workflow.py:86 | `sep.join(parts)`, defined by recursion; its properties are the three `Join` lemmas below |
| Text.JoinAppend | retrieval/main_workflow.py:86 | joining one more part appends the separator and that part |
| Text.JoinLength | retrieval/main_workflow.py:86 | the joined text is as long as the parts plus one separator between each pair of neighbours |
| Text.JoinStartsWithFirst | retrieval/main_workflow.py:86 | the first part is a prefix of the joined text |
| Text.Split | main.py:12 | `split` always yields at least one piece |
| Text.SplitPiecesFree | main.py:12 | no piece contains the separator |
| Text.SplitJoin | main.py:12 | joining the pieces with the separator gives the text back |
| Text.TrimStart | main.py:12 | `lstrip`: a suffix of the input, all removed characters are in the set, and the result does not start with one |
| Text.TrimEnd | main.py:12 | `rstrip`: a prefix of the input, all removed characters are in the set, and the result does not end with one |
| Text.Strip | main.py:12 | `strip(cs)` as `lstrip` then `rstrip`; its properties are the `Strip` lemmas below |
| Text.StripBounds | main.py:12 | `strip` returns a slice of its input that neither starts nor ends in the set, and everything removed is in the set |
| Text.StripEmptyIff | main.py:12 | `strip` gives the empty string iff every character is in the set |
| Text.StripIdempotent | main.py:12 | stripping twice with the same set is stripping once |
| Text.StripIsSubstring | main.py:12 | the stripped text is a contiguous piece of the input |
| Text.FindFrom | ingest/chunk_documents.py:40-41 | the first occurrence of the token at or after a position, or none at all |
| Text.FindFirst | ingest/chunk_documents.py:40-41 | found iff `token in text`, and then at its first occurrence |
| Text.NatToString | ingest/chunk_documents.py:113 | `str(i)` has at least one digit, and two or more exactly when `i >= 10` |
| Text.NatToStringInjective | ingest/chunk_documents.py:113 | different numbers have different decimal strings |
| Scoring.VectorScore | retrieval/retrieval_workflow.py:73 | `max(0, 1 - dist)` is non-negative, is `1 - dist` for `dist <= 1` and 0 beyond, and is at most 1 for non-negative distances |
| Scoring.VectorScoreAntitone | retrieval/retrieval_workflow.py:73 | a larger distance never gives a larger score |
| Scoring.Bm25Score | retrieval/retrieval_workflow.py:111 | `1 - i/m` lies in (0, 1], and the first result scores exactly 1 |
| Scoring.Bm25ScoreDecreasing | retrieval/retrieval_workflow.py:111 | BM25 scores strictly decrease with the rank |
| Scoring.Bm25ScoreLinear | retrieval/retrieval_workflow.py:111 | consecutive BM25 scores are `1/m` apart |
| Scoring.MethodEntries | retrieval/retrieval_workflow.py:78-82 | the per-method entries use exactly the five score keys |
| Scoring.VectorMetadata | retrieval/retrieval_workflow.py:76-83 | the chunk's keys plus the five score keys; other keys unchanged; vector score from the distance, the other scores 0, method `"vector"` |
| Scoring.Bm25Metadata | retrieval/retrieval_workflow.py:114-121 | the chunk's keys plus the five score keys; other keys unchanged; BM25 score from the rank, the other scores 0, method `"bm25"` |
| Scoring.AnnotationsInUnitRange | retrieval/retrieval_workflow.py:73-121 | both annotations keep the vector and BM25 scores in [0, 1] |
| Scoring.MinOf | retrieval/retrieval_workflow.py:151-152 | `scores.min()` is one of the scores and no score is smaller |
| Scoring.MaxOf | retrieval/retrieval_workflow.py:151-152 | `scores.max()` is one of the scores and no score is larger |
| Scoring.Normalize | retrieval/retrieval_workflow.py:150-154 | one normalised score per raw score |
| Scoring.NormalizeAt | retrieval/retrieval_workflow.py:150-154 | each normalised score is `(s - min) / (max - min + 1e-6)` when `max > min`, and 0.5 otherwise |
| Scoring.RescaleInRange | retrieval/retrieval_workflow.py:151 | the rescaled score lies in [0, 1) |
| Scoring.RescaleMonotone | retrieval/retrieval_workflow.py:151 | rescaling keeps the order of the scores, strictly for strictly ordered scores |
| Scoring.RescaleTop | retrieval/retrieval_workflow.py:151 | the largest raw score maps to 1 within `1e-6 / (max - min)` |
| Scoring.NormalizeInRange | retrieval/retrieval_workflow.py:150-154 | every normalised score lies in [0, 1) |
| Scoring.NormalizeUniform | retrieval/retrieval_workflow.py:153 | equal raw scores all normalise to 0.5 |
| Scoring.NormalizeMinIsZero | retrieval/retrieval_workflow.py:151-152 | when the scores differ, the minimum maps to exactly 0 |
| Scoring.NormalizeMonotone | retrieval/retrieval_workflow.py:150-154 | `s_i <= s_j` implies `n_i <= n_j`, and `s_i < s_j` implies `n_i < n_j` |
| Ranking.Insert | retrieval/retrieval_workflow.py:161-165 | one insertion step: one element longer, the same multiset plus the new element, and sortedness kept |
| Ranking.SortDesc | retrieval/retrieval_workflow.py:161-165 | `sorted(..., reverse=True)` by score: same length, same multiset, non-increasing scores |
| Ranking.WithKeyMembers | retrieval/retrieval_workflow.py:161-165 | the run of equal scores holds exactly the elements with that score |
| Ranking.InsertKeepsTies | retrieval/retrieval_workflow.py:161-165 | inserting keeps each run of equal scores in input order |
| Ranking.SortKeepsTies | retrieval/retrieval_workflow.py:161-165 | stability: among equal scores the sorted order is the input order |
| Ranking.SortedStableUnique | retrieval/retrieval_workflow.py:161-165 | a sorted sequence is determined by its runs of equal scores |
| Ranking.StableSortUnique | retrieval/retrieval_workflow.py:161-165 | every stable descending sort of the input is `SortDesc` of it |
| Ranking.Zip | retrieval/retrieval_workflow.py:162 | `zip(scores, docs)` pairs the lists index by index |
| Ranking.Items | retrieval/retrieval_workflow.py:161-162 | `[doc for _, doc in pairs]` keeps the order and the length |
| Ranking.SortItemsPermutation | retrieval/retrieval_workflow.py:161-165 | the sorted documents are a permutation of the candidates |
| Ranking.RankByScore | retrieval/retrieval_workflow.py:161-165 | the documents of the pairs sorted by score; `SelectTopSpec` states its properties |
| Ranking.SelectTop | retrieval/retrieval_workflow.py:161-168 | the first five of the ranked documents; `SelectTopSpec` and `SelectTopSubset` state its properties |
| Ranking.TopK | retrieval/retrieval_workflow.py:168 | `s[:k]` is the prefix of length `min(k, len(s))` |
| Ranking.SelectTopSpec | retrieval/retrieval_workflow.py:161-168 | the sorted pairs are a permutation, non-increasing by raw score; the result is their first `min(5, n)` documents; no candidate left out scores above one kept |
| Ranking.SelectTopSubset | retrieval/retrieval_workflow.py:161-168 | the selection holds only candidates, each at most as often as among the candidates |
| Ranking.SortMapItems | retrieval/retrieval_workflow.py:161-165 | the order depends only on the scores: mapping the items commutes with the sort |
| Ranking.SelectTopMap | retrieval/retrieval_workflow.py:161-168 | ranking documents and then taking their texts is ranking their texts |
| RetrievalWorkflow.Corpus | retrieval/retrieval_workflow.py:98-101 | one BM25 corpus document per stored row: its text, and its metadata or `{}` |
| RetrievalWorkflow.CrossScores | retrieval/retrieval_workflow.py:143-147 | one cross-encoder score per candidate text, index-aligned |
| RetrievalWorkflow.HitTexts | retrieval/retrieval_workflow.py:69-75 | the texts of the store rows, in the store's order |
| RetrievalWorkflow.LexicalTexts | retrieval/retrieval_workflow.py:106-128 | the texts of the BM25 results in rank order, or none when retrieval raised |
| RetrievalWorkflow.CandidateTexts | retrieval/retrieval_workflow.py:138 | the semantic hit texts followed by the BM25 texts, duplicates kept |
| RetrievalWorkflow.TopTexts | retrieval/retrieval_workflow.py:139-168 | none for no candidates, else the top five candidate texts by cross-encoder score |
| RetrievalWorkflow.RetrievedTexts | retrieval/retrieval_workflow.py:138-168 | the texts the sub-graph retrieves: `TopTexts` of the candidate texts; `RetrievedTextsBound` states their number |
| RetrievalWorkflow.RetrievedTextsBound | retrieval/retrieval_workflow.py:138-168 | exactly `min(5, n)` of the `n` candidate texts are retrieved, each one a candidate |
| RetrievalWorkflow.CandidateMetadata | retrieval/retrieval_workflow.py:57-138 | the candidates' metadata after both searches: the vector annotations in store order, then the BM25 annotations in rank order, one per candidate text |
| RetrievalWorkflow.Rescored | retrieval/retrieval_workflow.py:150-158 | one metadata entry per candidate, each with its normalised cross-encoder score added |
| RetrievalWorkflow.RerankedMetadata | retrieval/retrieval_workflow.py:138-158 | the candidates' metadata after the merge, one entry per candidate text |
| RetrievalWorkflow.RerankedScoreInRange | retrieval/retrieval_workflow.py:150-158 | after the merge every candidate holds a `crossencoder_score` in [0, 1) beside the five score keys |
| RetrievalWorkflow.RerankedKeepsAnnotation | retrieval/retrieval_workflow.py:157-158 | the merge adds `crossencoder_score` to the search annotation and changes no other key |
| RetrievalWorkflow.RerankedUniform | retrieval/retrieval_workflow.py:153 | when every candidate gets the same cross-encoder score, each one's `crossencoder_score` is 0.5 |
| RetrievalWorkflow.RerankedScoresInUnitRange | retrieval/retrieval_workflow.py:73-158 | with non-negative distances, every reranked candidate keeps its vector and BM25 scores in [0, 1] |
| RetrievalWorkflow.LastIndexBefore | retrieval/retrieval_workflow.py:157-158 | the last loop position before the bound that holds the object, or none |
| RetrievalWorkflow.MetadataAfterWrites | retrieval/retrieval_workflow.py:157-158 | a document's metadata after some writes of the loop: unchanged if none reached it, else with the score of its last position; `AfterWritesStep` and `WrittenScore` state its properties |
| RetrievalWorkflow.AfterWritesStep | retrieval/retrieval_workflow.py:157-158 | one more write of the loop changes the metadata of the object written, and of no other |
| RetrievalWorkflow.WriteScores | retrieval/retrieval_workflow.py:157-158 | after the loop, each document's metadata is its old metadata plus `crossencoder_score` from its last position |
| RetrievalWorkflow.RetrievalState.constructor | retrieval/retrieval_workflow.py:44-48 | the input state: the query, and no documents |
| RetrievalWorkflow.RetrievalState.SemanticSearch | retrieval/retrieval_workflow.py:57-87 | one fresh document per store row, in order, with the row's text and annotated metadata; the documents are distinct; other fields unchanged |
| RetrievalWorkflow.RetrievalState.Bm25Search | retrieval/retrieval_workflow.py:90-130 | one fresh document per BM25 result, in rank order, with annotated metadata; none when retrieval raised; distinct from the semantic ones; other fields unchanged |
| RetrievalWorkflow.RetrievalState.MergeAndRerank | retrieval/retrieval_workflow.py:133-170 | no candidates: nothing retrieved; otherwise the candidates are semantic then BM25 with duplicates kept; each candidate's metadata gains `crossencoder_score` and nothing else, holding the normalised score of its last position; the result is the top five by raw score; the query passes through |
| RetrievalWorkflow.RetrievalState.Search | retrieval/retrieval_workflow.py:180-182 | the two searches in edge order yield fresh, distinct candidates carrying the candidate texts and the candidate metadata |
| RetrievalWorkflow.RetrievalState.MergeStep | retrieval/retrieval_workflow.py:133-170 | the merge on distinct candidates returns the candidate objects `SelectTop` ranks first (none for no candidates), hence the `TopTexts` of their texts, and leaves each candidate's metadata rescored; the query passes through |
| RetrievalWorkflow.RetrievalState.Run | retrieval/retrieval_workflow.py:175-186 | the sub-graph retrieves exactly the candidate objects `SelectTop` ranks first by cross-encoder score (none for no candidates), so their texts are those `RetrievedTexts` describes; every candidate's metadata is `RerankedMetadata`, so every document retrieved holds a `crossencoder_score` in [0, 1) beside the five score keys; the query is kept |
| RetrievalWorkflow.CandidatesAreTexts | retrieval/retrieval_workflow.py:138 | the candidate documents carry the semantic texts followed by the BM25 texts |
| RetrievalWorkflow.CandidatesAreAnnotated | retrieval/retrieval_workflow.py:138 | the candidate documents carry the semantic annotations followed by the BM25 annotations |
| RetrievalWorkflow.MergedTexts | retrieval/retrieval_workflow.py:138-170 | the merge of candidates carrying some texts yields exactly their `TopTexts`, each document a candidate |
| RetrievalWorkflow.MergedMetadata | retrieval/retrieval_workflow.py:150-158 | after the loop over distinct candidates, each carries its entry of the rescored metadata |
| RetrievalWorkflow.RetrievedReranked | retrieval/retrieval_workflow.py:157-168 | every document the merge keeps holds a `crossencoder_score` in [0, 1) beside the five score keys |
| RetrievalWorkflow.SelectTopTexts | retrieval/retrieval_workflow.py:143-168 | the texts of the top documents are the top texts, and each is a candidate |
| RetrievalWorkflow.WrittenScore | retrieval/retrieval_workflow.py:157-158 | a candidate that occurs once ends up with its own normalised score |
| RetrievalWorkflow.BuildRetrievalGraph | retrieval/retrieval_workflow.py:175-186 | the builder calls compile to the sub-graph value |
| RetrievalWorkflow.RetrievalGraphSteps | retrieval/retrieval_workflow.py:180-183 | `START` leads to the semantic search, that to BM25, that to the merge, that to `END` |
| RetrievalWorkflow.RetrievalGraphRanked | retrieval/retrieval_workflow.py:180-183 | the sub-graph has no cycle |
| RetrievalWorkflow.RetrievalGraphOrder | retrieval/retrieval_workflow.py:175-186 | every run executes the three nodes once each, in edge order, and finishes |
| StateGraphs.StateGraph.constructor | retrieval/main_workflow.py:99 | a new builder has no nodes and no edges |
| StateGraphs.StateGraph.AddNode | retrieval/main_workflow.py:102-105 | registers the name and changes nothing else |
| StateGraphs.StateGraph.AddEdge | retrieval/main_workflow.py:121-125 | appends the edge and changes nothing else |
| StateGraphs.StateGraph.SetEntryPoint | retrieval/main_workflow.py:108 | appends an edge from `START` |
| StateGraphs.StateGraph.AddConditionalEdges | retrieval/main_workflow.py:111-118 | records the path map of the source node |
| StateGraphs.StateGraph.Compile | retrieval/main_workflow.py:128 | the compiled graph holds exactly what was registered |
| StateGraphs.FirstTarget | retrieval/main_workflow.py:121-125 | found iff some plain edge leaves the node, and then it is such an edge |
| StateGraphs.Next | retrieval/main_workflow.py:111-125 | after a conditional edge there is no route iff the label is missing from its path map, and otherwise the mapped node; nodes without one follow a plain edge |
| StateGraphs.RunTraceDecreasing | retrieval/main_workflow.py:108-125 | along a run of a ranked graph, the ranks of the executed nodes strictly decrease |
| StateGraphs.RunTraceDistinct | retrieval/main_workflow.py:108-125 | no run of a ranked graph executes a node twice |
| MainWorkflow.TriagePrompt | retrieval/main_workflow.py:58 | the triage prompt is the fixed head followed by the query, unchanged |
| MainWorkflow.AnswerPrompt | retrieval/main_workflow.py:90 | the answer prompt is the triage prompt, `" with context: "`, then the context, and both can be read back |
| MainWorkflow.Context | retrieval/main_workflow.py:86 | the texts of the documents joined by blank lines; the three `Context` lemmas below state its properties |
| MainWorkflow.ContextSmall | retrieval/main_workflow.py:86 | no documents give an empty context; one document gives its text |
| MainWorkflow.ContextAppend | retrieval/main_workflow.py:86 | the context keeps retrieval order: one more document appends a blank line and its text |
| MainWorkflow.ContextLength | retrieval/main_workflow.py:86 | the context is the texts plus one blank line between neighbours |
| MainWorkflow.BuildMainGraph | retrieval/main_workflow.py:99-128 | the module-level builder calls compile to the workflow graph |
| MainWorkflow.MainGraphNext | retrieval/main_workflow.py:108-125 | the compiled graph routes exactly as the routing table says |
| MainWorkflow.MainGraphSteps | retrieval/main_workflow.py:108-125 | entry is triage; `OUT_OF_SCOPE` goes to `out_of_scope`, `DATA_QUESTION` to retrieval, any other label has no route; then answer, then `END` |
| MainWorkflow.MainGraphRanked | retrieval/main_workflow.py:108-125 | the workflow graph has no cycle |
| MainWorkflow.MainRunIsGraphRun | retrieval/main_workflow.py:108-128 | the table's run is the compiled graph's run from every node |
| MainWorkflow.MainGraphRoutes | retrieval/main_workflow.py:111-125 | `OUT_OF_SCOPE` runs triage and `out_of_scope`; `DATA_QUESTION` runs triage, retrieval and answer in that order; any other label stops after triage with no route |
| MainWorkflow.OutOfScopeRoute | retrieval/main_workflow.py:111-124 | the out-of-scope run reaches `END` through `out_of_scope` only |
| MainWorkflow.DataQuestionRoute | retrieval/main_workflow.py:116-125 | the data-question run is retrieval then answer, once each |
| MainWorkflow.UnknownRoute | retrieval/main_workflow.py:111-118 | any other label fails to route after triage |
| MainWorkflow.ExactlyOneResponder | retrieval/main_workflow.py:108-125 | a finished run went through exactly one of `out_of_scope` and answer, and no node ran twice |
| MainWorkflow.QueryState.constructor | main.py:20 | the input state holds the query, no label, no documents and no answer |
| MainWorkflow.QueryState.Triage | retrieval/main_workflow.py:48-62 | the language model's reply becomes the query type verbatim, and nothing else changes |
| MainWorkflow.QueryState.OutOfScope | retrieval/main_workflow.py:65-69 | the answer becomes the fixed refusal, and nothing else changes |
| MainWorkflow.QueryState.Retrieval | retrieval/main_workflow.py:72-78 | the retrieved documents carry the sub-graph's texts, and nothing else changes |
| MainWorkflow.QueryState.Answer | retrieval/main_workflow.py:81-93 | the answer is the language model's reply to the query with the joined context, and nothing else changes |
| MainWorkflow.QueryState.Execute | retrieval/main_workflow.py:102-105 | running the node bound to a name moves the state on to the stage of the next node on the route |
| MainWorkflow.QueryState.Advance | retrieval/main_workflow.py:111-125 | one superstep: execute, then route on the state's `query_type` exactly as the routing table says |
| MainWorkflow.QueryState.Invoke | retrieval/main_workflow.py:99-128 | `invoke` gives the run of the graph on the triage label; at `END` the state holds the refusal, or the retrieved texts and the answer from them; otherwise only triage has run |
| MainWorkflow.ExpectedReply | main.py:20-21 | the reply to one question by its triage label: the refusal, the answer from the retrieved context, or a routing error |
| MainWorkflow.AnswerQuestion | main.py:20-21 | a fresh run gives the refusal, the generated answer, or a routing error for any other label |
| Questions.Question | main.py:12 | the clean-up of one line as written: numbering characters stripped from both ends, then whitespace; `QuestionShape` and `QuestionDropsTail` state its properties |
| Questions.ParseQuestions | main.py:12 | the question list as written; `ParseQuestionsSpec` states its properties |
| Questions.ParseIntendedQuestions | main.py:12 | the question list with only the leading numbering removed, the corrected clean-up |
| Questions.BlankIff | main.py:12 | a line fails the filter iff all its characters are whitespace |
| Questions.ParseLinesCount | main.py:12 | one question per kept line, so no more questions than lines |
| Questions.Origins | main.py:12 | the positions of the kept lines lie within the lines |
| Questions.Shift | main.py:12 | every position moves one place on |
| Questions.OriginsMatch | main.py:12 | the k-th question is the cleaned line at the k-th kept position, and that line passed the filter |
| Questions.ShiftIncreasing | main.py:12 | shifting an increasing list, with or without a leading 0, keeps it increasing |
| Questions.OriginsIncreasing | main.py:12 | questions keep the lines' order |
| Questions.ShiftHas | main.py:12 | a position in the shifted list is one place on |
| Questions.OriginsComplete | main.py:12 | every line that passes the filter yields a question |
| Questions.ParseQuestionsSpec | main.py:12 | the question list has one question per non-blank line, in line order, each the clean-up of its line, and no other |
| Questions.NumberingOnly | main.py:12 | a kept line made only of numbering characters becomes the empty question |
| Questions.NumberingOnlyIsEmpty | main.py:12 | `"5."` is kept and becomes `""` |
| Questions.TenKeepsZero | main.py:12 | only `1`-`5`, `.` and space are stripped: `"10. x"` becomes `"0. x"` |
| Questions.QuestionShape | main.py:12 | a question neither starts nor ends with whitespace, and is a contiguous piece of its line |
| Questions.TrimStartPrefix | main.py:12 | `lstrip` removes exactly a numbering prefix |
| Questions.StripKeeps | main.py:12 | a text without whitespace at either end survives the second strip |
| Questions.IntendedKeepsQuestion | main.py:12 | removing only the leading numbering gives a numbered question back whole |
| Questions.CleanupsAgree | main.py:12 | the written and the intended clean-up agree unless the question ends in a numbering character |
| Questions.TrimEndTail | main.py:12 | `rstrip` removes a tail of set characters and no more |
| Questions.QuestionDropsTail | main.py:12 | as written, a question ending in numbering characters loses that whole tail |
| Questions.QuestionLosesYear | main.py:12 | as written, `"1. Births in 2025"` becomes `"Births in 20"` |
| Questions.IntendedKeepsYear | main.py:12 | removing only the leading numbering gives `"Births in 2025"` |
| Questions.AllReplies | main.py:19-21 | one reply per question |
| Questions.AllRepliesAt | main.py:19-21 | the i-th reply is the reply to the i-th question |
| Questions.UpToFirstErrorShape | main.py:19-21 | the driver's replies are a prefix of all replies; all but the last are answers, and the run stops early only at a routing error |
| Questions.UpToFirstErrorAfter | main.py:19-21 | after i answers the run continues from position i |
| Questions.AskAll | main.py:19-21 | the loop's replies are all replies up to and including the first routing error |
| Questions.AskGenerated | main.py:12-21 | the driver parses the generated list with the clean-up as written and asks each question in turn, up to the first routing error |
| Questions.AskGeneratedIntended | main.py:12-21 | the same driver with the corrected clean-up that removes only the leading numbering |
| ChunkDocuments.CleanText | ingest/chunk_documents.py:35-42 | without the marker the text is unchanged; with it, the result is the strictly shorter prefix before its first occurrence and holds no marker |
| ChunkDocuments.CleanTextIdempotent | ingest/chunk_documents.py:35-42 | cleaning twice is cleaning once |
| ChunkDocuments.PrefixAvoids | ingest/chunk_documents.py:40-41 | the text before the first occurrence holds no occurrence |
| ChunkDocuments.ChunkMetadata | ingest/chunk_documents.py:112 | exactly the keys `source` and `chunk_index`, holding the file name and the position |
| ChunkDocuments.FileBatch | ingest/chunk_documents.py:111-113 | the three record lists each have one entry per chunk |
| ChunkDocuments.FileBatchRecords | ingest/chunk_documents.py:111-113 | each document is the summary, a blank line and its chunk, all recoverable; its metadata names the file and position; its id is stem and position |
| ChunkDocuments.NatToStringDigits | ingest/chunk_documents.py:113 | `str(i)` is made only of digits |
| ChunkDocuments.ChunkId | ingest/chunk_documents.py:113 | the id `stem_chunk_i`; `ChunkIdShape` and `ChunkIdInjective` state its properties |
| ChunkDocuments.ChunkIdShape | ingest/chunk_documents.py:113 | an id ends with `_` followed only by the digits of the position |
| ChunkDocuments.ChunkIdInjective | ingest/chunk_documents.py:113 | an id determines its stem and its position |
| ChunkDocuments.FileIdsDistinct | ingest/chunk_documents.py:113 | the ids of one file are pairwise distinct |
| ChunkDocuments.AllRecords | ingest/chunk_documents.py:97-116 | the records of all files concatenated in file order |
| ChunkDocuments.TotalChunks | ingest/chunk_documents.py:95-117 | `total_docs_added`: the sum of the files' chunk counts |
| ChunkDocuments.AllRecordsSnoc | ingest/chunk_documents.py:97-117 | one more file appends its records and adds its chunk count |
| ChunkDocuments.AllRecordsCount | ingest/chunk_documents.py:111-117 | the total is the number of documents, of metadata entries and of ids added |
| ChunkDocuments.AllIdsFromStems | ingest/chunk_documents.py:113 | every id is built from the stem of one of the files |
| ChunkDocuments.AllIdsDistinct | ingest/chunk_documents.py:97-113 | files with distinct stems never add the same id twice |
| ChunkDocuments.Collection.constructor | ingest/chunk_documents.py:93 | a new collection holds no records |
| ChunkDocuments.Collection.Add | ingest/chunk_documents.py:116 | `collection.add` appends the three lists |
| ChunkDocuments.Collection.Count | ingest/chunk_documents.py:122 | `collection.count()`: the number of ids stored |
| ChunkDocuments.Ingest | ingest/chunk_documents.py:95-117 | the collection grows by the records of all files, in file order; `total_docs_added` is their chunk count, so the collection's count grows by the total |

## Left out

- ChromaDB (`PersistentClient`, `get_collection`, `get_or_create_collection`, `query`, `get`, `add`) is foreign persistent storage. The query and the stored rows are parameters, and the collection is a list of records. Chroma's handling of ids already stored (it skips them with a warning) and of ids repeated within one `add` (it raises) is not modelled; `AllIdsDistinct` and `FileIdsDistinct` show that with distinct file stems no id repeats within a run.
- The vector store's `query`, the cross-encoder's `predict`, `query_ai` and `generate_summary` are total functions in the model: they are assumed to succeed. In the program an exception from any of them propagates uncaught and ends `invoke`, the question loop of `main.py` or the ingestion loop. Only the BM25 node catches its exception, and that path is modelled.
- The BM25 ranking, the cross-encoder's `predict` and every Gemini call (`query_ai`, `generate_summary`, the question generation of `main.py`) are foreign. They are function parameters. The generated question text is an input of `AskGenerated`.
- `markdown_to_text` and `RecursiveCharacterTextSplitter` are library wrappers. They are function parameters, and chunk sizes and separators are not modelled.
- File discovery and reading (`glob("*.md")`, `read_text`): the files are an input sequence in glob order.
- All `print` output, `.env` loading and the printed exception message of the BM25 node are I/O.
- Scores are mathematical reals. numpy floats, IEEE rounding and `float(...)` are not modelled. `max(0, 1 - dist)` in `retrieval/retrieval_workflow.py:73` yields the int `0` for distances above 1; the model stores the real `0.0`, which Python's `==` treats as equal.
- Python dictionaries are maps. Key order is not modelled.
- The LangGraph runtime beyond routing: state-channel merging, the `OutputState` filter and the sub-graph's own `invoke` are not modelled. Nodes write their fields of the state object directly, and `AnswerQuestion` reads the answer field.
- RetrievalWorkflow.RetrievalState.Run: calls the three nodes in edge order instead of interpreting the compiled sub-graph. `RetrievalGraphOrder` proves that every run of the sub-graph is that order.
- An unknown triage label ends the question loop: the runtime's exception is uncaught in `main.py`. The model returns the replies up to and including the routing error.
- `prompt_templates.py` holds only constant prompt texts, which reach nothing but the language model. They are the two cases of `SystemPrompt`.
- `ingest/convert_pdfs_to_markdown.py` and `query_gemini.py` are not part of this model. They do PDF conversion and API plumbing.

## Findings

| source | as written | input that shows it | evidently intended | confidence | as-written member | corrected member |
|---|---|---|---|---|---|---|
| main.py:12 | `q.strip("12345. ")` removes numbering characters from both ends of each line, so a question ending in `1`-`5`, `.` or space loses that tail | `"1. Births in 2025"` becomes `"Births in 20"` | remove only the leading numbering, as `lstrip` would, giving `"Births in 2025"` | medium; not executed | Questions.QuestionLosesYear | Questions.IntendedKeepsYear |

The general forms are `Questions.QuestionDropsTail` for the code as written and
`Questions.IntendedKeepsQuestion` for the correction. `Questions.AskGenerated`
runs the driver as written and `Questions.AskGeneratedIntended` with the
correction. `Questions.CleanupsAgree`
shows that the two agree whenever the question does not end in a numbering
character.
