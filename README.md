# VaultFlex ingestion and retrieval core, in Dafny

VaultFlex is a local-first retrieval-augmented chatbot. Documents are uploaded into a knowledge-base
*scope* and pass through a medallion layout:

- **bronze** holds the raw files;
- **silver** holds the JSON chunks;
- **gold** holds a FAISS vector index.

A JSON ledger (`data/ingested_hashes.json`) maps `scope/filename` to the file's SHA-256 digest, so a
file is ingested once. Each chunk is also sent to an Ollama model. The model's reply is mined for
`(subject, predicate, object)` triples, and these are merged into a Neo4j graph whose relations are
tagged with the scope.

Answering a question takes these steps:

1. The model rewrites the question.
2. The three closest chunks are fetched from the scope's index.
3. TF-IDF keywords are taken from those chunks.
4. The graph is queried with the keywords.
5. The model answers from the rows and the sanitised chunks.

Deleting a scope removes its ledger entries and its part of the graph.

This project models that core on abstract state and proves what the code promises.

- **Ledger**: a `map<string, string>` held by the class `LedgerStore.HashTrackFile` as the file state
  `Absent | Unreadable | Present(map)`.
- **Graph**: a value with entities keyed by name, each with an optional scope tag, and a set of
  `(subject, type, scope, object)` relations. It is held by `GraphStore.GraphDatabase`. The Cypher
  `MERGE` and `DELETE` statements act on it as the shown queries say.
- **Oracles**: SHA-256, the document loaders, the splitter, the embedder, the FAISS search, the model
  endpoints, `json.loads`, TF-IDF and Python `repr` are function-typed parameters that the model
  does not look inside.
- **Modules**: there is one module per source file. Shared modules hold what several files use:
  - `PyText`: Python string operations;
  - `LedgerStore`;
  - `GraphStore`;
  - `TripleExtraction`: the post-processing the two vector graph builders share;
  - `KeywordSearch`;
  - `TextSanitizer`;
  - `Documents`, `Json`, `Wrappers` and `Seqs`.
- **Loops**: every source loop that updates state is a method with a `while` loop. Its `ensures`
  ties the result and the new state to a left-to-right fold function. The source's promises are
  lemmas about that fold.

Where the project's own documentation and the code disagree, the model follows the code:

- `rewrite_question` returns `""` once all three attempts fail. It does not fall back to the
  original question (`Retriever.RewriteOutcome`).
- After three failures, `_get_model` returns a history that keeps the new user turn
  (`Retriever.ChatFailureKeepsMessages`).
- The keyword query's `UNWIND` can return the same row twice (`KeywordSearch.UnwindRepeatsRows`).
- The builders' back-off is linear in the attempt number, although a comment calls it exponential
  (`TripleExtraction.RetryDelaysLinear`).

`KnowledgeBaseRetriever.AnswerWithKeywordsAndChunks` uses the corrected keyword step
`KeywordSearch.KeywordsFor` (see Findings).

## Model

| member | source | states |
|---|---|---|
| Config.FixedDirs | src/config.py:24-28 | the bronze, silver and gold directories and the ledger file are `data/bronze`, `data/silver`, `data/gold` and `data/ingested_hashes.json` |
| Config.BronzePath | src/config.py:40-41 | a plain scope's bronze path is `data/bronze/<scope>` |
| Config.SilverPath | src/config.py:40-42 | a scope without `/` has the silver file `data/silver/<scope>_chunks.json` |
| Config.GoldPath | src/config.py:40-43 | a plain scope's gold path is `data/gold/<scope>` |
| Config.BronzeGoldInjective | src/config.py:40-44 | for plain scope names, equal bronze paths or equal gold paths imply equal scopes |
| Config.SilverInjective | src/config.py:40-44 | for scope names without `/`, equal silver paths imply equal scopes |
| Config.ScopePathsDistinct | src/config.py:25-27 | for any relative scope, the bronze, silver and gold paths are pairwise distinct |
| Config.LedgerOutsideScopes | src/config.py:24-28 | compared lexically, as `pathlib` values with any `..` part left in place, the ledger file lies inside none of a scope's three paths |
| Config.DotDotReachesLedger | src/config.py:40-44 | the guarantee is only lexical: `..` is accepted as a scope name, and once each `..` is resolved against the part before it, the scope `..` has `data` as its bronze path and the scope `../ingested_hashes.json` has the ledger file as its gold path |
| Config.AbsoluteScopeCollides | src/config.py:40-44 | an absolute scope such as `/x` makes the bronze and gold paths the same path, because joining an absolute path replaces the base directory |
| Config.TrailingSlashCollides | src/config.py:40-41 | `a/` and `a` are different scope names with the same bronze path |
| Config.ChunkDefaultsWellFormed | src/config.py:56-57 | the default overlap of 200 is smaller than the default chunk size of 1000 |
| FileUtils.UploadedFile.constructor | src/utils/file_utils.py:32-35 | a new upload stream holds its bytes and is at position 0 |
| FileUtils.GetUploadHash | src/utils/file_utils.py:30-41 | the digest is SHA-256 of the bytes left in the stream, and the stream is rewound to position 0 so a later read sees all of it |
| FileUtils.GetFileHash | src/utils/file_utils.py:30-41 | a path's digest is SHA-256 of its bytes; a path that cannot be read as a file raises |
| FileUtils.SameBytesSameHash | src/utils/file_utils.py:30-41 | two files with the same bytes have the same digest |
| FileUtils.SortStrings | src/utils/file_utils.py:54 | the result is ordered as Python orders `str` values and is a permutation of the input |
| FileUtils.SortedUnique | src/utils/file_utils.py:54 | two sorted permutations of the same names are equal |
| FileUtils.GetExistingScopes | src/utils/file_utils.py:44-54 | the names of exactly the directory children, sorted ascending |
| FileUtils.ScopesIndependentOfListingOrder | src/utils/file_utils.py:54 | the scope list does not depend on the order in which `iterdir` lists entries |
| FileUtils.SelectedPartition | src/utils/file_utils.py:85-91 | the two result lists together hold every input exactly once, so their lengths add up to the number of inputs |
| FileUtils.CheckOne | src/utils/file_utils.py:85-91 | one upload is hashed, rewound, and appended to the already-ingested names or to the new files, by the ledger test |
| FileUtils.CheckIngestedStatus | src/utils/file_utils.py:57-93 | both lists keep input order; a file is reported already ingested exactly when the ledger maps `scope/name` to its digest; every stream ends rewound; the ledger is never written; an undecodable ledger raises |
| FileUtils.NoLedgerAllNew | src/utils/file_utils.py:76-80 | with no ledger file every upload is new |
| LedgerStore.HashTrackFile.constructor | src/data_ingestion/ingest_docs.py:74-78 | the ledger file starts in the given state |
| LedgerStore.CheckAndRecord | src/data_ingestion/ingest_docs.py:71-88 | an undecodable ledger raises. A file counts as seen exactly when the ledger maps its key to its digest, and then the ledger is unchanged. Otherwise the key is set to the digest and every other entry is kept |
| LedgerStore.CheckAndRecordIdempotent | src/vector/embedder.py:93-98 | checking the same file a second time reports it as seen and leaves the ledger as the first check left it |
| LedgerStore.RemovePrefixEntries | src/ui/data_ingest_ui.py:260-263 | the deleted keys are exactly the keys under the prefix, each listed once; the remaining map is the ledger without them |
| LedgerStore.WithoutPrefixPartition | src/ui/data_ingest_ui.py:260-263 | a key survives exactly when it is not under the prefix, and keeps its value; removed and surviving keys are disjoint and together number as many as the ledger |
| LedgerStore.DeleteScopeEntries | src/ui/data_ingest_ui.py:255-266 | with no ledger the count is 0; an undecodable ledger raises and is left as it was; otherwise the count is the number of keys under `scope/` and the ledger is written back without them |
| LedgerStore.OtherScopeKeySurvives | src/ui/data_ingest_ui.py:260-263 | a key of another scope without `/` is never under this scope's prefix, even when that scope's name extends this one |
| GraphStore.MergeTripleEffect | src/vector/llm_graph_builder.py:62-67 | a merge adds the subject and object nodes and one relation keyed by `(subject, type, scope, object)`. A new node is tagged only when tagging is on. Existing nodes keep their tags |
| GraphStore.MergeTripleIdempotent | src/vector/llm_graph_builder.py:62-67 | merging the same triple twice is merging it once |
| GraphStore.DeleteScopeRelations | src/ui/data_ingest_ui.py:271-274 | exactly the relations of other scopes survive, the nodes are untouched, and a well-formed graph stays well-formed |
| GraphStore.DeleteOrphans | src/ui/data_ingest_ui.py:275 | exactly the nodes that still have an edge survive, with their tags; the relations are untouched |
| GraphStore.DeleteTaggedNodes | src/frontent/kb_ingest_ui.py:166-168 | the statement fails exactly when a node tagged with the scope still has an edge; otherwise it removes exactly the tagged nodes and keeps the relations |
| GraphStore.DeleteScopeThenOrphans | src/ui/data_ingest_ui.py:271-275 | after both statements, no relation carries the scope, other scopes' relations are untouched, and every remaining node has an edge, so the nodes other scopes use survive |
| GraphStore.GraphDatabase.constructor | src/vector/llm_graph_builder.py:37 | the driver's graph and whether the server is reachable |
| GraphStore.GraphDatabase.RunMergeTriple | src/vector/llm_graph_builder.py:60-73 | a reachable server applies the merge; an unreachable one raises and changes nothing |
| GraphStore.GraphDatabase.RunDeleteScopeRelations | src/ui/data_ingest_ui.py:271-274 | the relation deletion runs, or the statement raises and changes nothing |
| GraphStore.GraphDatabase.RunDeleteOrphans | src/ui/data_ingest_ui.py:275 | the orphan deletion runs, or the statement raises and changes nothing |
| GraphStore.GraphDatabase.RunDeleteTaggedNodes | src/frontent/kb_ingest_ui.py:166-168 | the tagged-node deletion runs when the server is reachable and no tagged node still has an edge; otherwise it raises and changes nothing |
| IngestDocs.LastDot | src/data_ingestion/ingest_docs.py:104 | the position of the last `.` of a name, or none when there is no `.` |
| IngestDocs.SuffixOfStem | src/data_ingestion/ingest_docs.py:104 | a name `stem.x` with a non-empty stem has the suffix `.x` |
| IngestDocs.DotFileNoSuffix | src/data_ingestion/ingest_docs.py:104 | a name that starts with its only `.` has no suffix |
| IngestDocs.LedgerIndependentOfLoaders | src/data_ingestion/ingest_docs.py:103-125 | the ledger, and whether the run completes, do not depend on what the loaders do: the ledger check comes before the extension test |
| IngestDocs.LoadRunCompletes | src/data_ingestion/ingest_docs.py:103-125 | with a readable ledger, the run completes exactly when every listed entry is a readable file; a loader error never stops it |
| IngestDocs.NothingSupportedNothingLoaded | src/data_ingestion/ingest_docs.py:112-122 | when no suffix, lower-cased, is `.pdf`, `.docx`, `.md` or `.txt`, no documents are loaded |
| IngestDocs.KeyInjective | src/data_ingestion/ingest_docs.py:72 | within one scope, equal ledger keys mean equal file names |
| IngestDocs.LoadRunRecordsAll | src/vector/embedder.py:109-127 | after a completed run, every file is recorded with its digest, unsupported and unloadable ones included |
| IngestDocs.AllSeenRun | src/data_ingestion/ingest_docs.py:107-109 | when every file is already recorded, the run loads nothing and leaves the ledger unchanged |
| IngestDocs.SecondRunLoadsNothing | src/data_ingestion/ingest_docs.py:103-126 | rerunning on the same files loads nothing and leaves the ledger as the first run left it |
| IngestDocs.IsAlreadyIngested | src/data_ingestion/ingest_docs.py:60-88 | the file's hash is checked against `scope/name` and recorded when new, as `CheckAndRecord` says; an unreadable file or ledger raises |
| IngestDocs.LoadOne | src/data_ingestion/ingest_docs.py:104-125 | one file of the loop: ledger check first, then the extension dispatch and the loader, whose failure is caught |
| IngestDocs.LoadDocuments | src/data_ingestion/ingest_docs.py:91-126 | the documents and the ledger are those of the left-to-right run over the listed files |
| IngestDocs.ScopeStore.constructor | src/data_ingestion/ingest_docs.py:203-204 | the scope's silver chunks and gold index |
| IngestDocs.StoreEmbeddings | src/data_ingestion/ingest_docs.py:156-178 | no chunks means no index is written; otherwise the gold index holds the chunks when embedding succeeds and is unchanged when it raises |
| IngestDocs.IngestScope | src/data_ingestion/ingest_docs.py:181-215 | when loading raised or loaded nothing, silver, gold and the graph are untouched. Otherwise silver holds the split chunks, gold follows `StoreEmbeddings`, and the graph is whatever the builder reached before it raised, which is caught |
| Embedder.KnowledgeBaseIngestor.constructor | src/vector/embedder.py:44-52 | the ingestor's paths are `get_scope_paths(scope)` |
| Embedder.KnowledgeBaseIngestor.IsAlreadyIngested | src/vector/embedder.py:74-99 | the same check-and-record as the module-level `is_already_ingested` |
| Embedder.KnowledgeBaseIngestor.LoadDocuments | src/vector/embedder.py:101-128 | the same left-to-right run as the module-level `load_documents` |
| Embedder.KnowledgeBaseIngestor.StoreEmbeddings | src/vector/embedder.py:157-173 | no chunks means no index is written; otherwise the index holds the chunks or, when building it raises, is unchanged |
| Embedder.KnowledgeBaseIngestor.BuildGraph | src/vector/embedder.py:217-229 | with the server reachable the graph is the tagging builder's run over the chunks; otherwise the failure is caught and the graph is unchanged |
| Embedder.KnowledgeBaseIngestor.ChunkOnly | src/vector/embedder.py:193-206 | with nothing new it returns `[]` and writes no silver file; otherwise it returns the split chunks and saves them to silver; gold is never touched |
| Embedder.KnowledgeBaseIngestor.Ingest | src/vector/embedder.py:175-191 | it stops before splitting when nothing new loaded; otherwise silver, gold and the graph are the split chunks, the stored index and the builder's run |
| KnowledgeIngestor.KnowledgeBaseIngestor.constructor | src/vector/knowledge_ingestor.py:21-25 | the ingestor's paths are `get_scope_paths(scope)` |
| KnowledgeIngestor.KnowledgeBaseIngestor.IsAlreadyIngested | src/vector/knowledge_ingestor.py:38-54 | the same check-and-record as the module-level `is_already_ingested` |
| KnowledgeIngestor.KnowledgeBaseIngestor.LoadDocuments | src/vector/knowledge_ingestor.py:56-77 | the same left-to-right run as the module-level `load_documents` |
| KnowledgeIngestor.KnowledgeBaseIngestor.StoreEmbeddings | src/vector/knowledge_ingestor.py:88-98 | no chunks means no index is written; otherwise the index follows the embedder |
| KnowledgeIngestor.KnowledgeBaseIngestor.BuildGraph | src/vector/knowledge_ingestor.py:123-129 | the graph is the data-ingestion builder's run up to its first raise, and the raise is caught |
| KnowledgeIngestor.KnowledgeBaseIngestor.ChunkOnly | src/vector/knowledge_ingestor.py:111-118 | with nothing new it returns `[]` and writes no silver file; otherwise it returns the split chunks and saves them |
| KnowledgeIngestor.KnowledgeBaseIngestor.Ingest | src/vector/knowledge_ingestor.py:100-109 | it stops before splitting when nothing new loaded; otherwise silver, gold and the graph follow the chunks |
| TripleExtraction.CloseFrom | src/vector/llm_graph_builder.py:124 | the lazy `.*?`: the first `}` at or after a position that blanks and a `]` can follow |
| TripleExtraction.MatchAtSound | src/vector/llm_graph_builder.py:124 | what the engine finds at a position is a match of `\[\s*{.*?}\s*\]` |
| TripleExtraction.MatchAtShortest | src/vector/llm_graph_builder.py:124 | whenever a match starts at a position, the engine finds one there, and it is no longer than any other |
| TripleExtraction.SearchFrom | src/vector/llm_graph_builder.py:124 | `re.search` returns the first position where the engine matches, or none when there is no such position |
| TripleExtraction.SearchSpec | src/vector/llm_graph_builder.py:124-126 | the match found is the leftmost one, and the shortest of those that start there; with no result, no match exists |
| TripleExtraction.CleanArrayTextSpec | src/vector/llm_graph_builder.py:129 | on a matched array, the clean-up leaves no newline and no `+`, and changes neither the first nor the last character |
| TripleExtraction.ValidateElement | src/vector/llm_graph_builder.py:137 | an element is kept exactly when it is a dict with string subject, predicate and object. The test raises for a number, a boolean or `null`, and for a string or list holding a key |
| TripleExtraction.FilterValid | src/vector/llm_graph_builder.py:135-139 | the kept elements are exactly the valid triples of the list; an element whose test raises fails the attempt |
| TripleExtraction.ArrayTextParsesFirstMatch | src/vector/llm_graph_builder.py:117-130 | what is parsed is the cleaned leftmost-shortest match of the stripped reply |
| TripleExtraction.ArrayTextClean | src/vector/llm_graph_builder.py:128-130 | the parsed text has no newline and no `+`, and runs from `[` to `]` |
| TripleExtraction.ArrayTextFails | src/vector/llm_graph_builder.py:120-126 | a blank reply, or one with no match, fails the attempt before anything is parsed |
| TripleExtraction.Attempt | src/vector/llm_graph_builder.py:109-139 | a successful attempt returns only valid triples |
| TripleExtraction.RetryCounts | src/vector/llm_graph_builder.py:108-146 | at most `max_retries` attempts, with one delay after each failed attempt except the last |
| TripleExtraction.RetryDelaysLinear | src/vector/graph_builder_llm.py:117-122 | the k-th delay is `backoff_secs * (k + 1)`, linear and not exponential |
| TripleExtraction.RetryEarlierFailed | src/vector/llm_graph_builder.py:108-146 | every attempt before the last one made failed |
| TripleExtraction.RetryOutcome | src/vector/llm_graph_builder.py:139-148 | the result is the last attempt's triples when it succeeded, and `[]` once all attempts fail |
| TripleExtraction.ExtractTriplesWithRetry | src/vector/llm_graph_builder.py:75-148 | the triples, delays and number of attempts are those of the retry specification, and every triple returned is valid |
| VectorLlmGraphBuilder.NormalizeEnds | src/vector/llm_graph_builder.py:56-58 | a normalized name neither starts nor ends with whitespace |
| VectorLlmGraphBuilder.NormalizeIdempotent | src/vector/llm_graph_builder.py:56-58 | normalizing twice is normalizing once |
| VectorLlmGraphBuilder.ModelInputs | src/vector/llm_graph_builder.py:166-171 | at most one model input per chunk |
| VectorLlmGraphBuilder.ModelInputsAreChunkTexts | src/vector/llm_graph_builder.py:166-171 | every text sent to the model is the non-blank stripped text of some chunk |
| VectorLlmGraphBuilder.InsertKeepsTags | src/vector/llm_graph_builder.py:63-66 | an insert never changes the tag of an existing node |
| VectorLlmGraphBuilder.TriplesCountersClosed | src/vector/llm_graph_builder.py:174-183 | the inner loop adds the insertable triples to `inserted` and the others to `skipped` |
| VectorLlmGraphBuilder.ChunkCountersClosed | src/vector/llm_graph_builder.py:171-183 | one chunk adds its number of triples to `total`, its insertable ones to `inserted` and the rest to `skipped` |
| VectorLlmGraphBuilder.CountersAddUp | src/vector/llm_graph_builder.py:160-185 | `inserted + skipped == total` after any chunks |
| VectorLlmGraphBuilder.BlankChunkSkipped | src/vector/llm_graph_builder.py:166-169 | a chunk whose stripped text is empty yields no triples and no model call |
| VectorLlmGraphBuilder.ChunksInserted | src/vector/llm_graph_builder.py:179-181 | `inserted` is the number of triples whose stripped fields are all non-empty |
| VectorLlmGraphBuilder.NoReachErr | src/vector/llm_graph_builder.py:179-180 | when some chunk holds an insertable triple, the run inserts at least one |
| VectorLlmGraphBuilder.ChunkRunInserts | src/vector/llm_graph_builder.py:166-181 | an insert made by a prefix of a run is kept in the count of the whole run |
| VectorLlmGraphBuilder.GraphBuilderLLM.constructor | src/vector/llm_graph_builder.py:27-38 | the builder's database, model and endpoints |
| VectorLlmGraphBuilder.GraphBuilderLLM.InsertTriple | src/vector/llm_graph_builder.py:46-73 | the three names are trimmed and lower-cased, then the triple is merged and new nodes are tagged with the scope |
| VectorLlmGraphBuilder.GraphBuilderLLM.ExtractTriplesWithLlm | src/vector/llm_graph_builder.py:75-148 | the retrying extraction; only valid triples come back |
| VectorLlmGraphBuilder.GraphBuilderLLM.InsertOne | src/vector/llm_graph_builder.py:175-184 | a triple with a blank stripped field is skipped and counted as skipped; any other is inserted and counted, or the insert raises |
| VectorLlmGraphBuilder.GraphBuilderLLM.InsertTriples | src/vector/llm_graph_builder.py:174-184 | the graph and counters of the inner loop; with the server unreachable it raises exactly when some triple is insertable |
| VectorLlmGraphBuilder.GraphBuilderLLM.ProcessChunk | src/vector/llm_graph_builder.py:166-184 | a blank chunk is skipped without a model call; otherwise its stripped text is sent and its triples inserted |
| VectorLlmGraphBuilder.GraphBuilderLLM.ProcessText | src/vector/llm_graph_builder.py:171-184 | a non-blank text's triples are extracted and inserted |
| VectorLlmGraphBuilder.GraphBuilderLLM.ProcessChunks | src/vector/llm_graph_builder.py:150-189 | the model inputs go out in order; the graph and the three counters are those of the folds over all chunks; an unreachable server raises exactly when something is insertable |
| VectorGraphBuilder.InsertableValidated | src/vector/graph_builder_llm.py:137-140 | on a validated triple, the truthiness test is that no raw field is empty |
| VectorGraphBuilder.InsertUntagged | src/vector/graph_builder_llm.py:43-59 | an insert adds its two normalized nodes untagged, keeps existing nodes and their tags, and adds one relation |
| VectorGraphBuilder.InsertTwice | src/vector/graph_builder_llm.py:50-54 | inserting a triple again adds nothing |
| VectorGraphBuilder.BlankSubjectStoredEmpty | src/vector/graph_builder_llm.py:137-142 | a whitespace-only subject passes the unstripped test and is stored as the empty name, where the tagging builder would skip the triple |
| VectorGraphBuilder.DefaultSingleAttempt | src/vector/graph_builder_llm.py:134 | with the default `max_retries = 1`, there is exactly one attempt and no delay |
| TripleExtraction.CountWhere | src/vector/graph_builder_llm.py:140-142 | the number of triples that pass a builder's insert test is at most the number of triples |
| TripleExtraction.CountWhereZero | src/vector/graph_builder_llm.py:140-142 | the count is 0 exactly when no triple passes the insert test |
| VectorGraphBuilder.ChunkTripleLists | src/vector/graph_builder_llm.py:132-134 | one list of triples per chunk |
| VectorGraphBuilder.InsertedAtMostTotal | src/vector/graph_builder_llm.py:129-143 | `inserted <= total`, and `total` is 0 exactly when no chunk yields a triple |
| VectorGraphBuilder.ChunkRunInserts | src/vector/graph_builder_llm.py:132-142 | an insert made by a prefix of a run is kept in the count of the whole run |
| VectorGraphBuilder.GraphBuilderLLM.constructor | src/vector/graph_builder_llm.py:26-37 | the builder's database, model and endpoints |
| VectorGraphBuilder.GraphBuilderLLM.InsertTriple | src/vector/graph_builder_llm.py:43-59 | the three names are trimmed and lower-cased, then the triple is merged without tagging nodes |
| VectorGraphBuilder.GraphBuilderLLM.ExtractTriplesWithLlm | src/vector/graph_builder_llm.py:61-125 | the same retrying extraction; only valid triples come back |
| VectorGraphBuilder.GraphBuilderLLM.InsertOne | src/vector/graph_builder_llm.py:137-142 | a triple with an empty raw field is passed over; any other is inserted and counted, or the insert raises |
| VectorGraphBuilder.GraphBuilderLLM.InsertTriples | src/vector/graph_builder_llm.py:136-142 | the graph and `inserted` of the inner loop |
| VectorGraphBuilder.GraphBuilderLLM.ProcessChunk | src/vector/graph_builder_llm.py:132-142 | the raw chunk text goes to the model, however blank, then the triples are inserted and `total` grows by their number |
| VectorGraphBuilder.GraphBuilderLLM.ProcessChunks | src/vector/graph_builder_llm.py:128-143 | every chunk text goes out in order; the graph and counters are those of the folds over all chunks |
| IngestionGraphBuilder.Find | src/data_ingestion/graph_builder_llm.py:104 | the first index at or after a position that holds a character |
| IngestionGraphBuilder.FirstArray | src/data_ingestion/graph_builder_llm.py:104-108 | `\[.*?\]` under DOTALL: the leftmost match and the shortest one there, with no `]` before its last character |
| IngestionGraphBuilder.FirstArrayNone | src/data_ingestion/graph_builder_llm.py:104-106 | with no `]` after the first `[`, nothing matches |
| IngestionGraphBuilder.FirstArraySome | src/data_ingestion/graph_builder_llm.py:104-108 | the run from the first `[` to the first `]` after it is the match |
| IngestionGraphBuilder.CollapseNewlines | src/data_ingestion/graph_builder_llm.py:112 | no newline is left, and the text does not grow |
| IngestionGraphBuilder.CollapseNewlinesChars | src/data_ingestion/graph_builder_llm.py:112 | the collapse only adds spaces and keeps every character that is not whitespace |
| IngestionGraphBuilder.CollapseNewlinesNoop | src/data_ingestion/graph_builder_llm.py:112 | a text without newlines is left as it is |
| IngestionGraphBuilder.CleanTextShape | src/data_ingestion/graph_builder_llm.py:111-112 | the cleaned text has neither a `+` nor a newline |
| IngestionGraphBuilder.ExtractSpec | src/data_ingestion/graph_builder_llm.py:89-123 | a failed request raises uncaught; a blank reply, no match, a parse error or a non-list give `[]` |
| IngestionGraphBuilder.ExtractUnfiltered | src/data_ingestion/graph_builder_llm.py:108-118 | a non-empty result is exactly the parsed list of the cleaned first bracketed run, unfiltered |
| IngestionGraphBuilder.InsertVerbatim | src/data_ingestion/graph_builder_llm.py:52-62 | the names are stored exactly as given, untagged |
| IngestionGraphBuilder.TripleStepTwice | src/data_ingestion/graph_builder_llm.py:55-57 | a repeated identical insert changes nothing |
| IngestionGraphBuilder.TriplesRunUnreachable | src/data_ingestion/graph_builder_llm.py:137-142 | with the server unreachable, the inner loop never changes the graph |
| IngestionGraphBuilder.ChunksRunUnreachable | src/data_ingestion/graph_builder_llm.py:134-142 | with the server unreachable, a whole run leaves the graph as it was |
| IngestionGraphBuilder.GraphBuilderLLM.constructor | src/data_ingestion/graph_builder_llm.py:25-36 | the builder's database, model and endpoint |
| IngestionGraphBuilder.GraphBuilderLLM.InsertTriple | src/data_ingestion/graph_builder_llm.py:42-63 | one merge of the names as given, without tags |
| IngestionGraphBuilder.GraphBuilderLLM.ExtractTriplesWithLlm | src/data_ingestion/graph_builder_llm.py:65-123 | exactly one request, with no retry, then the clean-up and parse of `ExtractSpec` |
| IngestionGraphBuilder.GraphBuilderLLM.InsertOne | src/data_ingestion/graph_builder_llm.py:137-142 | a non-dict element raises; a triple with truthy fields is inserted; any other is passed over |
| IngestionGraphBuilder.GraphBuilderLLM.InsertTriples | src/data_ingestion/graph_builder_llm.py:137-142 | the inner loop over one chunk's triples, stopping at the first raise |
| IngestionGraphBuilder.GraphBuilderLLM.ProcessChunk | src/data_ingestion/graph_builder_llm.py:134-142 | the raw chunk text goes to the model, then its triples are inserted |
| IngestionGraphBuilder.GraphBuilderLLM.ProcessChunks | src/data_ingestion/graph_builder_llm.py:125-142 | the chunk texts go out in order; the graph is that of the run up to its first raise |
| DataIngestUi.DeleteScope | src/ui/data_ingest_ui.py:243-281 | the name is trimmed. The count is the number of ledger keys under `scope/`, and 0 with no ledger. Those keys are removed. An undecodable ledger raises before the graph is touched. When reachable, the graph loses the scope's relations, then its orphan nodes. A graph failure is caught and does not change the count |
| DataIngestUi.UntrimmedScopeKeysSurvive | src/ui/data_ingest_ui.py:244-260 | because only the deleted name is trimmed, the keys of a scope whose name has surrounding whitespace are never under the trimmed prefix |
| KbIngestUi.DeleteScope | src/frontent/kb_ingest_ui.py:119-178 | the same ledger behaviour as the other `delete_scope`. The graph runs three statements in order, and the first failing one ends the sequence, which is caught |
| KbIngestUi.TaggedDeleteFails | src/frontent/kb_ingest_ui.py:162-168 | the node deletion fails exactly when a node tagged with the scope is used by a relation of another scope |
| KbIngestUi.KbDeleteClears | src/frontent/kb_ingest_ui.py:162-172 | when no tagged node is shared, the result keeps exactly the other scopes' relations, no node tagged with the scope, and only nodes with an edge |
| KeywordSearch.InsertPos | src/vector/retriever.py:154 | the place a later element takes in a stable descending sort: after every term scoring at least as much, at the first term scoring less |
| KeywordSearch.InsertByScore | src/vector/retriever.py:154 | insertion adds exactly the new term to the multiset of terms and keeps a ranked list ranked |
| KeywordSearch.InsertByScoreAt | src/vector/retriever.py:154 | the new term goes in at `InsertPos`, with the other terms in their order on either side |
| KeywordSearch.InsertByScoreStable | src/vector/retriever.py:154 | inserting into a ranked list puts the new term after every term of the same score |
| KeywordSearch.SortByScore | src/vector/retriever.py:154 | a permutation of the terms in non-increasing score order |
| KeywordSearch.SortByScoreStable | src/vector/retriever.py:154 | the sort is stable, as Python's `sorted` with `reverse=True` is: the terms of each score come out in their input order |
| KeywordSearch.SortByScoreUnique | src/vector/retriever.py:154 | any ranked list that keeps each score's terms in input order is the sort's result, so ranking and stability define the sort |
| KeywordSearch.RankedByScoresEqual | src/vector/retriever.py:154 | two ranked lists that list the terms of every score in the same order are equal |
| KeywordSearch.SortedPrefixTiesFirst | src/vector/retriever.py:154-155 | cutting the sorted list keeps, of each score, the terms that came first |
| KeywordSearch.RankedPairwise | src/vector/retriever.py:154 | in a ranked list, an earlier term never scores less than a later one |
| KeywordSearch.LowerNames | src/vector/retriever.py:155 | the lower-cased names, one per term, in order |
| KeywordSearch.NoTextsRaise | src/vector/retriever.py:151-152 | the keyword step raises on an empty list of texts |
| KeywordSearch.KeywordsTopK | src/vector/retriever.py:151-155 | at most `top_k` keywords: the lower-cased names of the best-scoring terms of the vocabulary, in non-increasing score order; the ranking is a stable reordering, so where terms tie for the last places the ones earliest in the vocabulary are kept |
| KeywordSearch.KeywordsFor | src/vector/retriever.py:199-214 | the corrected keyword step: no texts give no keywords; otherwise it is the step as written |
| KeywordSearch.KeywordRows | src/vector/retriever.py:204-207 | one keyword yields at most one row per scanned edge |
| KeywordSearch.KeywordRowsExact | src/vector/retriever.py:205-207 | a row comes back for a keyword exactly when a scanned edge of the scope, whose lower-cased subject or object contains the keyword, yields it |
| KeywordSearch.UnwindRowsExact | src/vector/retriever.py:204-207 | a row is returned exactly when some keyword matches some edge of the scope that yields it |
| KeywordSearch.KeywordQueryRows | src/vector/retriever.py:203-210 | at most 25 rows. Each comes from an edge of the scope with a keyword in its lower-cased subject or object. Below the limit every such row is returned, and no keywords give no rows |
| KeywordSearch.UnwindRepeatsRows | src/vector/retriever.py:204 | an edge that matches two keywords comes back twice |
| TextSanitizer.KeepAllowed | src/vector/retriever.py:218 | only word characters, whitespace and `.,:;()-'"%` are left, and each allowed character is kept as often as it occurs in the input |
| TextSanitizer.KeepAllowedAppend | src/vector/retriever.py:218 | the first pass works character by character, so it keeps the allowed characters in their order |
| TextSanitizer.SqueezeNewlines | src/vector/retriever.py:219 | no two neighbouring newlines are left; with newlines ignored the text is unchanged, so only newlines are dropped; the first character stays and nothing is added |
| TextSanitizer.CollapseSpaces | src/vector/retriever.py:220 | no two neighbouring whitespace characters are left. With whitespace ignored the text is unchanged, so every other character is kept in order. Only spaces are added. Emptiness and a leading whitespace character are kept |
| TextSanitizer.KeepAllowedNoop | src/vector/retriever.py:218 | a text of allowed characters passes the first pass unchanged |
| TextSanitizer.SqueezeNewlinesNoop | src/vector/retriever.py:219 | a text without a newline pair passes the second pass unchanged |
| TextSanitizer.CollapseSpacesNoop | src/vector/retriever.py:220 | a text without a whitespace pair passes the third pass unchanged |
| TextSanitizer.PassesKeepAllowed | src/vector/retriever.py:219-220 | the later passes let no disallowed character back in |
| TextSanitizer.StripMakesClean | src/vector/retriever.py:221 | stripping an allowed text with no whitespace pair leaves a clean text |
| TextSanitizer.CleanTextChunkIsClean | src/vector/retriever.py:216-221 | the output has only allowed characters, no two neighbouring whitespace characters and no whitespace at either end |
| TextSanitizer.CleanTextChunkNoop | src/vector/retriever.py:216-221 | a clean text passes unchanged |
| TextSanitizer.CleanTextChunkKeepsWords | src/vector/retriever.py:216-221 | with whitespace ignored, the output is exactly the input's allowed characters, in order |
| TextSanitizer.CleanTextChunkIdempotent | src/vector/retriever.py:216-221 | sanitising twice is sanitising once |
| Retriever.TriesFirstSuccess | src/vector/retriever.py:60-67 | the first attempt that succeeds ends the loop with its reply, after one delay per earlier attempt |
| Retriever.TriesAllFail | src/vector/retriever.py:60-69 | when every attempt fails the reply is none, after a delay following every attempt, the last included: 1.5, 3 and 4.5 seconds |
| Retriever.FullPromptShape | src/vector/retriever.py:56 | with a system prompt, the text sent is the stripped system prompt, a blank line, and the stripped prompt; without one, the prompt unchanged |
| Retriever.PrepareShape | src/vector/retriever.py:88-93 | the caller's history comes through whole and in order. A system message is put first only when one is given and none is present. A user turn is appended only for a non-empty prompt |
| Retriever.ChatFailureKeepsMessages | src/vector/retriever.py:97-107 | after three failures the reply is `""` and the history is the messages sent, new user turn included, with no assistant turn |
| Retriever.ChatSuccessAppendsReply | src/vector/retriever.py:101-102 | on success the stripped reply is returned and is the last message of the history |
| Retriever.RewriteOutcome | src/vector/retriever.py:157-181 | the rewrite is the model's stripped reply, or `""` when all attempts fail |
| Retriever.IndexPathIsGold | src/vector/retriever.py:134 | for a relative scope, the index path is the gold path `get_scope_paths` gives |
| Retriever.AbsoluteScopeMissesGold | src/vector/retriever.py:134 | for an absolute scope, the index path and the gold path differ |
| Retriever.Cleaned | src/vector/retriever.py:216-223 | the clean-up fails exactly when some chunk cannot be `unicode_escape`-decoded; otherwise it gives one sanitised chunk per retrieved chunk, in order |
| Retriever.NoChunksNoInformation | src/vector/retriever.py:213-214 | with the corrected keyword step, a search that finds no chunk on a reachable graph gives the fixed apology, with no chat call and the history unchanged |
| Retriever.ApologyUnreachableAsWritten | src/vector/retriever.py:199-214 | as written, the keyword step succeeds only on a non-empty chunk list, so the apology is never reached |
| Retriever.DecodeFailureRaises | src/vector/retriever.py:216-223 | on a reachable graph, a retrieved chunk that cannot be decoded makes the answer raise, with no chat call and the history unchanged |
| Retriever.AnswerAsksWithContext | src/vector/retriever.py:225-259 | on a reachable graph with rows or chunks whose chunks all decode, the answer succeeds and is stripped. The messages sent hold a system message. When the rendered user prompt is not empty, it is the last message; it is built from the rewritten question, the rows and the sanitised chunks |
| Retriever.KnowledgeBaseRetriever.constructor | src/vector/retriever.py:39-40 | the retriever's database and services |
| Retriever.KnowledgeBaseRetriever.GetModelNoMemory | src/vector/retriever.py:42-69 | the stripped reply of the first successful attempt on the joined prompt, or `""` after three failures |
| Retriever.KnowledgeBaseRetriever.GetModel | src/vector/retriever.py:71-107 | the reply and the history are those of the prepared messages and the three chat attempts |
| Retriever.KnowledgeBaseRetriever.RewriteQuestion | src/vector/retriever.py:157-181 | the rewritten question as `RewriteOutcome` describes it |
| Retriever.KnowledgeBaseRetriever.RetrieveDocs | src/vector/retriever.py:123-138 | the texts of the three nearest chunks in the index at `data/gold/<scope>`; an index that cannot be loaded raises |
| Retriever.KnowledgeBaseRetriever.RunKeywordQuery | src/vector/retriever.py:203-210 | the keyword query's rows on a reachable server; an unreachable server raises |
| Retriever.KnowledgeBaseRetriever.AnswerWithKeywordsAndChunks | src/vector/retriever.py:183-259 | the answer and the history are those of the whole pipeline: rewrite, search, keywords, graph query, apology or chat call |
| Retriever.KnowledgeBaseRetriever.AnswerFromTexts | src/vector/retriever.py:199-259 | the steps after retrieval: keywords, graph query, apology or chat call |
| Retriever.RetryThree | src/vector/retriever.py:60-67 | the loop's reply, delays and number of attempts are those of the three-attempt specification |

## Left out

- File I/O is state or outcomes, not bytes on disk. The ledger's JSON (de)serialisation, directory creation, `save_chunks_to_silver` and the removal of a scope's directories in both `delete_scope`s are not modelled. A written silver file is the `silver` field of the scope store.
- SHA-256, the four langchain loaders, `RecursiveCharacterTextSplitter`, the HuggingFace embedder and FAISS are black-box parameters, because their algorithms are outside this code.
- The Ollama endpoints are functions from the model, the prompt or messages, and the attempt number to an optional reply. The prompt templates around a chunk text are inside those functions.
- `json.loads` of the model's output is a parser parameter.
- `time.sleep` is modelled only as ghost sequences of the requested delays.
- The Neo4j driver, sessions and `close()` are reduced to a reachable flag. A server is either reachable for every statement or for none, so a connection that drops partway through is not modelled.
- `get_file_hash` appears once in each of `embedder.py`, `knowledge_ingestor.py` and `ingest_docs.py`, with the same code as `file_utils.py`. It is modelled once, as `FileUtils.GetFileHash` and `FileUtils.GetUploadHash`.
- `split_documents` and `embed_only` are not separate members. They only call the splitter and `store_embeddings`, so they are the `split` oracle and `StoreEmbeddings` themselves.
- `Embedder.KnowledgeBaseIngestor.StoreEmbeddings`: the `HuggingFaceEmbeddings` constructor, which sits outside the `try`, is not modelled as a separate point of failure.
- The same applies to `IngestDocs.StoreEmbeddings` and `KnowledgeIngestor.KnowledgeBaseIngestor.StoreEmbeddings`.
- `IngestionGraphBuilder.GraphBuilderLLM.InsertOne`: a truthy field that is not a string is passed over instead of being sent to Neo4j, because the graph stores only string names. For a number or a list of numbers or strings, Neo4j would store the value as the name. For a dict or a list holding dicts, Neo4j rejects the property value, so the source raises and the run ends where the model goes on.
- The graph-builder constructors do not connect to anything: the driver is a given `GraphDatabase`.
- The `unicode_escape` decoding in `clean_text_chunk` is a decoder parameter. It may fail, and a failure makes the answer raise (`Retriever.DecodeFailureRaises`). Which texts fail is up to the parameter: the codec's own rules for backslash escapes are not modelled.
- `TextSanitizer.KeepAllowed`: the regex `\w` is modelled for characters up to U+00FF. Any other letter or digit is treated as removed.
- `PyText.Lower`: lower-casing is modelled for ASCII and the Latin-1 capitals only; every other character, Greek and Cyrillic capitals included, is left unchanged. Python's `str.lower` and Cypher's `toLower` cover all of Unicode, including the few characters such as U+0130 that lower-case to two. Every member that lower-cases inherits this: `VectorLlmGraphBuilder.Normalize`, both builders' `InsertTriple`, and `KeywordSearch.LowerNames`, `RowMatches`, `KeywordsTopK`, `KeywordRowsExact`, `UnwindRowsExact` and `KeywordQueryRows`.
- `VectorLlmGraphBuilder.GraphBuilderLLM.InsertTriple`: its merge keys are lower-cased by `PyText.Lower`, so names with capitals beyond Latin-1 keep them where the source would lower-case them.
- `VectorGraphBuilder.GraphBuilderLLM.InsertTriple`: the merge keys use the same `PyText.Lower`, with the same gap beyond Latin-1.
- `KeywordSearch.LowerNames`: the keywords are lower-cased by `PyText.Lower`, not by full-Unicode `str.lower`.
- `KeywordSearch.KeywordsTopK`: the top-k terms are lower-cased by `PyText.Lower`, with the same gap beyond Latin-1.
- `KeywordSearch.KeywordRowsExact`: the match lower-cases entity names with `PyText.Lower` in place of Cypher's full-Unicode `toLower`.
- `KeywordSearch.UnwindRowsExact`: the same `PyText.Lower` gap in the name match.
- `KeywordSearch.KeywordQueryRows`: the same `PyText.Lower` gap in the name match.
- `Retriever.AnswerSpec`: it models the corrected keyword step (`KeywordSearch.KeywordsFor`): with no retrieved chunks it returns the apology, where the source raises "empty vocabulary" (see Findings; the as-written half is `Retriever.ApologyUnreachableAsWritten`).
- `Retriever.KnowledgeBaseRetriever.AnswerWithKeywordsAndChunks`: it is proved equal to `AnswerSpec`, so it too models the corrected keyword step and returns the apology on an empty search, where the source raises.
- `Retriever.KnowledgeBaseRetriever.AnswerFromTexts`: the same corrected keyword step; with no chunks and no rows it returns the apology, where the source raises.
- `Config.LedgerOutsideScopes`: the guarantee is lexical. Paths are `pathlib` values, which keep `..` parts, so a scope name holding `..` can reach the ledger on disk (`Config.DotDotReachesLedger`). The scope names are not checked against this.
- TF-IDF scoring, stop words and `max_features=1000` live inside the scoring parameter. Only the top-k, lower-case and ordering steps are modelled.
- Python `repr` of the rows and chunks, and the f-string of the answer prompt, are a render parameter.
- The order of the rows a Neo4j scan returns is a parameter (`order`), tied to the graph by `ScanOf`.
- `st.session_state["chat_history"]` is passed in and returned as a value.
- The Streamlit UI, `run_ingestion_ui`, the chat pages, the health checks and the commented-out code are not part of the core.
- Environment variables in `src/config.py` are taken at their defaults.

## Findings

| source | as written | input that shows it | evidently intended | confidence | as-written member | corrected member |
|---|---|---|---|---|---|---|
| src/vector/retriever.py:199-214 | `extract_keywords(text_chunks)` runs before the guard. `TfidfVectorizer.fit_transform([])` raises "empty vocabulary", so with no chunks the method raises and the guard that returns the fixed apology can never fire | a scope whose index search returns no chunks | with no chunks there are no keywords, and when the graph also gives no rows the fixed apology is returned without a chat call | not executed | KeywordSearch.NoTextsRaise, Retriever.ApologyUnreachableAsWritten, KeywordSearch.ExtractKeywordsAsWritten | KeywordSearch.KeywordsFor, Retriever.NoChunksNoInformation |
