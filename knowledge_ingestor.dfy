/** `KnowledgeBaseIngestor` of `knowledge_ingestor.py`: the same ingestion stage as `embedder.py`,
    with the data-ingestion graph builder (one call per chunk, names as given, no tags). */
module KnowledgeIngestor {
  import opened Wrappers
  import opened Documents
  import opened LedgerStore
  import opened FileUtils
  import opened IngestDocs
  import Config
  import Ing = IngestionGraphBuilder

  class KnowledgeBaseIngestor {
    const scope: string
    const paths: Config.ScopePaths
    const ledger: HashTrackFile
    const store: ScopeStore
    const sha: Hasher
    const load: Loader
    const split: Splitter
    const embed: Embedder
    const builder: Ing.GraphBuilderLLM

    /** `__init__`: the scope and its paths (creating the directories is not modelled). */
    constructor (scope: string, ledger: HashTrackFile, store: ScopeStore, sha: Hasher, load: Loader,
                 split: Splitter, embed: Embedder, builder: Ing.GraphBuilderLLM)
      ensures this.scope == scope && paths == Config.GetScopePaths(scope)
      ensures this.ledger == ledger && this.store == store && this.sha == sha && this.load == load
      ensures this.split == split && this.embed == embed && this.builder == builder
    {
      this.scope := scope;
      paths := Config.GetScopePaths(scope);
      this.ledger := ledger;
      this.store := store;
      this.sha := sha;
      this.load := load;
      this.split := split;
      this.embed := embed;
      this.builder := builder;
    }

    /** `is_already_ingested` for this scope. */
    method IsAlreadyIngested(file: LocalFile) returns (r: Result<bool>)
      modifies ledger
      ensures r.Ok? <==> file.content.Some? && !old(ledger.file).Unreadable?
      ensures r.Err? ==> ledger.file == old(ledger.file)
      ensures r.Ok? ==>
        && r.value == CheckAndRecord(old(ledger.file), Key(scope, file.name), sha(file.content.value)).value.seen
        && ledger.file == CheckAndRecord(old(ledger.file), Key(scope, file.name), sha(file.content.value)).value.after
    {
      r := IngestDocs.IsAlreadyIngested(scope, file, ledger, sha);
    }

    /** `load_documents` over the files the bronze directory lists. */
    method LoadDocuments(files: seq<LocalFile>) returns (r: Result<seq<Document>>)
      modifies ledger
      ensures ledger.file == LoadRun(LoadState([], old(ledger.file), true), scope, files, sha, load).ledger
      ensures r.Ok? <==> LoadRun(LoadState([], old(ledger.file), true), scope, files, sha, load).ok
      ensures r.Ok? ==> r.value == LoadRun(LoadState([], old(ledger.file), true), scope, files, sha, load).docs
    {
      r := IngestDocs.LoadDocuments(scope, files, ledger, sha, load);
    }

    /** `store_embeddings` into this scope's gold index. */
    method StoreEmbeddings(chunks: seq<Document>)
      modifies store
      ensures store.silver == old(store.silver)
      ensures chunks == [] ==> store.gold == old(store.gold)
      ensures chunks != [] ==> store.gold == if embed(chunks) then Some(VectorIndex(chunks)) else old(store.gold)
    {
      IngestDocs.StoreEmbeddings(chunks, store, embed);
    }

    /** `build_graph`: whatever the builder raises is caught. */
    method BuildGraph(chunks: seq<Document>)
      requires builder.db.Valid()
      modifies builder.db
      ensures builder.db.Valid()
      ensures builder.db.graph == Ing.ChunksRun(Ing.Progress(old(builder.db.graph), true), builder.respond, builder.parse, builder.model, chunks, scope, builder.db.reachable).graph
    {
      var ok;
      ghost var prompts;
      ok, prompts := builder.ProcessChunks(chunks, scope);
    }

    /** `chunk_only`: load, and when something new loaded, split it and save the chunks to silver. */
    method ChunkOnly(files: seq<LocalFile>) returns (r: Result<seq<Document>>)
      modifies ledger, store
      ensures ledger.file == LoadRun(LoadState([], old(ledger.file), true), scope, files, sha, load).ledger
      ensures r.Ok? <==> LoadRun(LoadState([], old(ledger.file), true), scope, files, sha, load).ok
      ensures store.gold == old(store.gold)
      ensures r.Err? || LoadRun(LoadState([], old(ledger.file), true), scope, files, sha, load).docs == [] ==>
        store.silver == old(store.silver) && (r.Ok? ==> r.value == [])
      ensures r.Ok? && LoadRun(LoadState([], old(ledger.file), true), scope, files, sha, load).docs != [] ==>
        r.value == split(LoadRun(LoadState([], old(ledger.file), true), scope, files, sha, load).docs) && store.silver == Some(r.value)
    {
      var rawDocs := LoadDocuments(files);
      if rawDocs.Err? {
        return Err(rawDocs.error);
      }
      if rawDocs.value == [] {
        return Ok([]);
      }
      var chunks := split(rawDocs.value);
      store.silver := Some(chunks);
      r := Ok(chunks);
    }

    /** `ingest`: load; stop when that raised or loaded nothing; otherwise split, save to silver,
        store the embeddings and build the graph. */
    method Ingest(files: seq<LocalFile>) returns (r: Result<()>)
      requires builder.db.Valid()
      modifies ledger, store, builder.db
      ensures builder.db.Valid()
      ensures ledger.file == LoadRun(LoadState([], old(ledger.file), true), scope, files, sha, load).ledger
      ensures r.Ok? <==> LoadRun(LoadState([], old(ledger.file), true), scope, files, sha, load).ok
      ensures r.Err? || LoadRun(LoadState([], old(ledger.file), true), scope, files, sha, load).docs == [] ==>
        store.silver == old(store.silver) && store.gold == old(store.gold) && builder.db.graph == old(builder.db.graph)
      ensures r.Ok? && LoadRun(LoadState([], old(ledger.file), true), scope, files, sha, load).docs != [] ==>
        var chunks := split(LoadRun(LoadState([], old(ledger.file), true), scope, files, sha, load).docs);
        && store.silver == Some(chunks)
        && store.gold == (if chunks != [] && embed(chunks) then Some(VectorIndex(chunks)) else old(store.gold))
        && builder.db.graph == Ing.ChunksRun(Ing.Progress(old(builder.db.graph), true), builder.respond, builder.parse, builder.model, chunks, scope, builder.db.reachable).graph
    {
      var rawDocs := LoadDocuments(files);
      if rawDocs.Err? {
        return Err(rawDocs.error);
      }
      if rawDocs.value == [] {
        return Ok(());
      }
      var chunks := split(rawDocs.value);
      store.silver := Some(chunks);
      StoreEmbeddings(chunks);
      BuildGraph(chunks);
      r := Ok(());
    }
  }
}
