/** The ingestion stage shared by the data-ingestion module and both `KnowledgeBaseIngestor`
    classes: every bronze file is hashed and checked against the ledger (recording it when new)
    before its extension is looked at, only `.pdf`, `.docx`, `.md` and `.txt` files reach a loader,
    a loader error skips that one file, and the pipeline stops when nothing new was loaded. */
module IngestDocs {
  import opened Wrappers
  import opened PyText
  import opened Documents
  import opened LedgerStore
  import opened FileUtils
  import opened GraphStore
  import opened Seqs
  import Ing = IngestionGraphBuilder

  // ---------------------------------------------------------------------------------------------
  // `Path.suffix.lower()` and the loader dispatch

  /** The index of the last `.` of a name. */
  function LastDot(s: string): (r: Option<nat>)
    ensures r.Some? ==> r.value < |s| && s[r.value] == '.' && '.' !in s[r.value + 1..]
    ensures r.None? ==> '.' !in s
  {
    if s == [] then None
    else if s[|s| - 1] == '.' then Some(|s| - 1)
    else
      var r := LastDot(s[..|s| - 1]);
      assert s == s[..|s| - 1] + [s[|s| - 1]];
      if r.Some? then assert s[r.value + 1..] == s[..|s| - 1][r.value + 1..] + [s[|s| - 1]]; r
      else r
  }

  /** `PurePath.suffix` of a file name: from the last `.` on, unless that dot starts the name or
      ends it. */
  function Suffix(name: string): string {
    match LastDot(name)
    case None => ""
    case Some(i) => if 0 < i < |name| - 1 then name[i..] else ""
  }

  /** A dot with no dot after it is the last one. */
  lemma {:induction false} LastDotIs(s: string, i: nat)
    requires i < |s| && s[i] == '.' && '.' !in s[i + 1..]
    ensures LastDot(s) == Some(i)
  {
    assert s[i + 1..] == s[i + 1..|s|];
    NotInSlice(s, '.', i + 1, |s|);
    assert s[i] in s;
    var r := LastDot(s).value;
    assert s[r + 1..] == s[r + 1..|s|];
    NotInSlice(s, '.', r + 1, |s|);
  }

  /** A name made of a non-empty stem, a dot and a dot-free extension has that extension. */
  lemma {:induction false} SuffixOfStem(stem: string, x: string)
    requires stem != [] && x != [] && '.' !in x
    ensures Suffix(stem + "." + x) == "." + x
  {
    var s := stem + "." + x;
    assert s[|stem| + 1..] == x;
    LastDotIs(s, |stem|);
    assert s[|stem|..] == "." + x;
  }

  /** A dot-file such as `.pdf` has no suffix, so it never reaches a loader. */
  lemma {:induction false} DotFileNoSuffix(x: string)
    requires '.' !in x
    ensures Suffix("." + x) == ""
  {
    var s := "." + x;
    assert s[1..] == x;
    LastDotIs(s, 0);
  }

  /** The lower-cased suffixes with a loader. */
  predicate Supported(ext: string) {
    ext == ".pdf" || ext == ".docx" || ext == ".md" || ext == ".txt"
  }

  /** `PyMuPDFLoader`, `UnstructuredWordDocumentLoader`, `UnstructuredMarkdownLoader` or
      `TextLoader`, chosen by the lower-cased suffix, then `load()`; `None` when loading raises. */
  type Loader = (string, LocalFile) -> Option<seq<Document>>

  /** The documents a new file adds: none for an unsupported suffix or a loader error. */
  function Contribution(file: LocalFile, load: Loader): seq<Document> {
    var ext := Lower(Suffix(file.name));
    if !Supported(ext) then []
    else match load(ext, file)
      case None => []
      case Some(ds) => ds
  }

  // ---------------------------------------------------------------------------------------------
  // `is_already_ingested` and `load_documents`

  /** The documents so far, the ledger file, and whether the loop is still running (an exception
      outside the `try` ends it). */
  datatype LoadState = LoadState(docs: seq<Document>, ledger: LedgerFile, ok: bool)

  /** One file of `load_documents`: hashing (which raises for a sub-directory) and the ledger check
      come first and are not guarded; a file already recorded is skipped; a new one adds its
      contribution. */
  function FileStep(st: LoadState, scope: string, file: LocalFile, sha: Hasher, load: Loader): LoadState {
    if !st.ok then st
    else match GetFileHash(file, sha)
      case Err(_) => st.(ok := false)
      case Ok(digest) =>
        match CheckAndRecord(st.ledger, Key(scope, file.name), digest)
        case Err(_) => st.(ok := false)
        case Ok(c) => LoadState(if c.seen then st.docs else st.docs + Contribution(file, load), c.after, true)
  }

  /** The loop of `load_documents` over the listed files, from left to right. */
  function LoadRun(st: LoadState, scope: string, files: seq<LocalFile>, sha: Hasher, load: Loader): LoadState {
    if files == [] then st else FileStep(LoadRun(st, scope, files[..|files| - 1], sha, load), scope, files[|files| - 1], sha, load)
  }

  lemma {:induction false} LoadRunStep(st: LoadState, scope: string, files: seq<LocalFile>, i: nat, sha: Hasher, load: Loader)
    requires i < |files|
    ensures LoadRun(st, scope, files[..i + 1], sha, load) == FileStep(LoadRun(st, scope, files[..i], sha, load), scope, files[i], sha, load)
  {
    assert files[..i + 1][..i] == files[..i];
  }

  /** A run that stopped on a prefix ends the way the prefix ended. */
  lemma {:induction false} LoadRunStops(st: LoadState, scope: string, files: seq<LocalFile>, k: nat, sha: Hasher, load: Loader)
    requires k <= |files| && !LoadRun(st, scope, files[..k], sha, load).ok
    ensures LoadRun(st, scope, files, sha, load) == LoadRun(st, scope, files[..k], sha, load)
    decreases |files| - k
  {
    if k < |files| {
      var front := files[..|files| - 1];
      assert front[..k] == files[..k];
      LoadRunStops(st, scope, front, k, sha, load);
    } else {
      assert files[..k] == files;
    }
  }

  /** Loaders only decide which documents come out: whether the loop completes and what it writes
      to the ledger are the same for any loader, so a failing loader never stops the loop and
      every file is checked and recorded whatever its suffix. */
  lemma {:induction false} LedgerIndependentOfLoaders(st: LoadState, scope: string, files: seq<LocalFile>, sha: Hasher, load1: Loader, load2: Loader)
    ensures LoadRun(st, scope, files, sha, load1).ledger == LoadRun(st, scope, files, sha, load2).ledger
    ensures LoadRun(st, scope, files, sha, load1).ok == LoadRun(st, scope, files, sha, load2).ok
  {
    if files != [] {
      LedgerIndependentOfLoaders(st, scope, files[..|files| - 1], sha, load1, load2);
    }
  }

  /** Every listed entry can be opened for reading. */
  predicate AllReadable(files: seq<LocalFile>) {
    forall j :: 0 <= j < |files| ==> files[j].content.Some?
  }

  /** The loop completes exactly when every listed entry can be read, provided the ledger file can
      be decoded. */
  lemma {:induction false} LoadRunCompletes(st: LoadState, scope: string, files: seq<LocalFile>, sha: Hasher, load: Loader)
    requires st.ok && !st.ledger.Unreadable?
    ensures !LoadRun(st, scope, files, sha, load).ledger.Unreadable?
    ensures LoadRun(st, scope, files, sha, load).ok <==> AllReadable(files)
  {
    if files != [] {
      var front := files[..|files| - 1];
      var last := files[|files| - 1];
      LoadRunCompletes(st, scope, front, sha, load);
      assert files == front + [last];
      assert AllReadable(files) <==> AllReadable(front) && last.content.Some?;
    }
  }

  /** With no supported suffix in the listing nothing is loaded. */
  lemma {:induction false} NothingSupportedNothingLoaded(st: LoadState, scope: string, files: seq<LocalFile>, sha: Hasher, load: Loader)
    requires forall j :: 0 <= j < |files| ==> !Supported(Lower(Suffix(files[j].name)))
    ensures LoadRun(st, scope, files, sha, load).docs == st.docs
  {
    if files != [] {
      var front := files[..|files| - 1];
      assert forall j :: 0 <= j < |front| ==> front[j] == files[j];
      NothingSupportedNothingLoaded(st, scope, front, sha, load);
      assert st.docs + [] == st.docs;
    }
  }

  /** Different names give different ledger keys within a scope. */
  lemma {:induction false} KeyInjective(scope: string, a: string, b: string)
    requires Key(scope, a) == Key(scope, b)
    ensures a == b
  {
    assert a == Key(scope, a)[|scope| + 1..];
    assert b == Key(scope, b)[|scope| + 1..];
  }

  /** Every file of the listing is recorded with its digest, as long as the names are distinct
      (they are: they come from one directory). */
  predicate AllRecorded(l: LedgerFile, scope: string, files: seq<LocalFile>, sha: Hasher) {
    && Load(l).Ok?
    && forall j :: 0 <= j < |files| ==> files[j].content.Some? && Recorded(Load(l).value, Key(scope, files[j].name), sha(files[j].content.value))
  }

  predicate DistinctNames(files: seq<LocalFile>) {
    forall i, j :: 0 <= i < j < |files| ==> files[i].name != files[j].name
  }

  /** After a completed run every listed file is recorded with its digest. */
  lemma {:induction false} LoadRunRecordsAll(st: LoadState, scope: string, files: seq<LocalFile>, sha: Hasher, load: Loader)
    requires st.ok && !st.ledger.Unreadable? && DistinctNames(files) && LoadRun(st, scope, files, sha, load).ok
    ensures AllRecorded(LoadRun(st, scope, files, sha, load).ledger, scope, files, sha)
  {
    if files != [] {
      var front := files[..|files| - 1];
      var last := files[|files| - 1];
      var mid := LoadRun(st, scope, front, sha, load);
      assert DistinctNames(front) by {
        forall i, j | 0 <= i < j < |front| ensures front[i].name != front[j].name {
          assert front[i] == files[i] && front[j] == files[j];
        }
      }
      LoadRunRecordsAll(st, scope, front, sha, load);
      var digest := sha(last.content.value);
      var key := Key(scope, last.name);
      var c := CheckAndRecord(mid.ledger, key, digest).value;
      assert LoadRun(st, scope, files, sha, load).ledger == c.after;
      forall j | 0 <= j < |files|
        ensures files[j].content.Some? && Recorded(Load(c.after).value, Key(scope, files[j].name), sha(files[j].content.value))
      {
        if j < |front| {
          assert front[j] == files[j];
          if Key(scope, files[j].name) == key {
            KeyInjective(scope, files[j].name, last.name);
          }
        }
      }
    }
  }

  /** Over files that are all recorded, the loop skips every one: nothing loads, nothing is
      written. */
  lemma {:induction false} AllSeenRun(st: LoadState, scope: string, files: seq<LocalFile>, sha: Hasher, load: Loader)
    requires st.ok && AllRecorded(st.ledger, scope, files, sha)
    ensures LoadRun(st, scope, files, sha, load) == st
  {
    if files != [] {
      var front := files[..|files| - 1];
      assert forall j :: 0 <= j < |front| ==> front[j] == files[j];
      AllSeenRun(st, scope, front, sha, load);
    }
  }

  /** Running the stage again on the same unchanged files loads nothing and leaves the ledger as
      the first run left it. */
  lemma {:induction false} SecondRunLoadsNothing(f: LedgerFile, scope: string, files: seq<LocalFile>, sha: Hasher, load: Loader)
    requires !f.Unreadable? && DistinctNames(files) && LoadRun(LoadState([], f, true), scope, files, sha, load).ok
    ensures var l1 := LoadRun(LoadState([], f, true), scope, files, sha, load).ledger;
      LoadRun(LoadState([], l1, true), scope, files, sha, load) == LoadState([], l1, true)
  {
    var l1 := LoadRun(LoadState([], f, true), scope, files, sha, load).ledger;
    LoadRunRecordsAll(LoadState([], f, true), scope, files, sha, load);
    AllSeenRun(LoadState([], l1, true), scope, files, sha, load);
  }

  /** `is_already_ingested`: hash the file (raising for an entry that cannot be read), read the
      ledger (raising when it cannot be decoded), report whether it holds this digest under
      `scope/name`, and record the digest when it does not. */
  method IsAlreadyIngested(scope: string, file: LocalFile, ledger: HashTrackFile, sha: Hasher) returns (r: Result<bool>)
    modifies ledger
    ensures r.Ok? <==> file.content.Some? && !old(ledger.file).Unreadable?
    ensures r.Err? ==> ledger.file == old(ledger.file)
    ensures r.Ok? ==>
      && r.value == CheckAndRecord(old(ledger.file), Key(scope, file.name), sha(file.content.value)).value.seen
      && ledger.file == CheckAndRecord(old(ledger.file), Key(scope, file.name), sha(file.content.value)).value.after
  {
    var fileHash := GetFileHash(file, sha);
    if fileHash.Err? {
      return Err(fileHash.error);
    }
    var scopedKey := Key(scope, file.name);
    var c := CheckAndRecord(ledger.file, scopedKey, fileHash.value);
    if c.Err? {
      return Err(c.error);
    }
    ledger.file := c.value.after;
    r := Ok(c.value.seen);
  }

  /** One file of the loop. */
  method LoadOne(scope: string, file: LocalFile, ledger: HashTrackFile, sha: Hasher, load: Loader, docs: seq<Document>)
    returns (ok: bool, docs': seq<Document>)
    modifies ledger
    ensures LoadState(docs', ledger.file, ok) == FileStep(LoadState(docs, old(ledger.file), true), scope, file, sha, load)
  {
    var ext := Lower(Suffix(file.name));
    var seen := IsAlreadyIngested(scope, file, ledger, sha);
    if seen.Err? {
      return false, docs;
    }
    if seen.value {
      return true, docs;
    }
    if !Supported(ext) {
      return true, docs;
    }
    var loaded := load(ext, file);
    if loaded.None? {
      return true, docs;
    }
    return true, docs + loaded.value;
  }

  /** `load_documents` over the files the bronze directory lists: the documents and ledger of
      `LoadRun`, or a raise, after which the ledger keeps what the earlier files wrote. */
  method LoadDocuments(scope: string, files: seq<LocalFile>, ledger: HashTrackFile, sha: Hasher, load: Loader)
    returns (r: Result<seq<Document>>)
    modifies ledger
    ensures ledger.file == LoadRun(LoadState([], old(ledger.file), true), scope, files, sha, load).ledger
    ensures r.Ok? <==> LoadRun(LoadState([], old(ledger.file), true), scope, files, sha, load).ok
    ensures r.Ok? ==> r.value == LoadRun(LoadState([], old(ledger.file), true), scope, files, sha, load).docs
  {
    ghost var st0 := LoadState([], ledger.file, true);
    var docs: seq<Document> := [];
    var i := 0;
    assert files[..i] == [];
    while i < |files|
      invariant 0 <= i <= |files|
      invariant LoadState(docs, ledger.file, true) == LoadRun(st0, scope, files[..i], sha, load)
    {
      LoadRunStep(st0, scope, files, i, sha, load);
      var ok;
      ok, docs := LoadOne(scope, files[i], ledger, sha, load, docs);
      if !ok {
        LoadRunStops(st0, scope, files, i + 1, sha, load);
        return Err("loading stopped at " + files[i].name);
      }
      i := i + 1;
    }
    assert files[..i] == files;
    r := Ok(docs);
  }

  // ---------------------------------------------------------------------------------------------
  // Silver and gold, and `ingest_scope`

  /** What one scope holds on disk besides its bronze files: the silver chunk file and the gold
      FAISS index (`None` while absent). */
  class ScopeStore {
    var silver: Option<seq<Document>>
    var gold: Option<VectorIndex>

    constructor (silver: Option<seq<Document>>, gold: Option<VectorIndex>)
      ensures this.silver == silver && this.gold == gold
    {
      this.silver := silver;
      this.gold := gold;
    }
  }

  /** `store_embeddings`: no chunks, no index; otherwise the index of the chunks is saved, unless
      building it raises, which is caught and leaves the old index. */
  method StoreEmbeddings(chunks: seq<Document>, store: ScopeStore, embed: Embedder)
    modifies store
    ensures store.silver == old(store.silver)
    ensures chunks == [] ==> store.gold == old(store.gold)
    ensures chunks != [] ==> store.gold == if embed(chunks) then Some(VectorIndex(chunks)) else old(store.gold)
  {
    if chunks == [] {
      return;
    }
    if embed(chunks) {
      store.gold := Some(VectorIndex(chunks));
    }
  }

  /** `ingest_scope`: load; stop when that raised or loaded nothing; otherwise split, save the
      chunks to silver, store the embeddings, and build the graph, whose failure is caught. */
  method IngestScope(scope: string, files: seq<LocalFile>, ledger: HashTrackFile, sha: Hasher, load: Loader,
                     split: Splitter, embed: Embedder, store: ScopeStore, builder: Ing.GraphBuilderLLM)
    returns (r: Result<()>)
    requires builder.db.Valid()
    modifies ledger, store, builder.db
    ensures builder.db.Valid()
    ensures ledger.file == LoadRun(LoadState([], old(ledger.file), true), scope, files, sha, load).ledger
    ensures r.Ok? <==> LoadRun(LoadState([], old(ledger.file), true), scope, files, sha, load).ok
    ensures r.Err? || LoadRun(LoadState([], old(ledger.file), true), scope, files, sha, load).docs == [] ==>
      store.silver == old(store.silver) && store.gold == old(store.gold) && builder.db.graph == old(builder.db.graph)
    ensures r.Ok? && LoadRun(LoadState([], old(ledger.file), true), scope, files, sha, load).docs != [] ==>
      var chunks := split(LoadRun(LoadState([], old(ledger.file), true), scope, files, sha, load).docs);
      && store.silver == Some(chunks)
      && store.gold == (if chunks != [] && embed(chunks) then Some(VectorIndex(chunks)) else old(store.gold))
      && builder.db.graph == Ing.ChunksRun(Ing.Progress(old(builder.db.graph), true), builder.respond, builder.parse,
                                            builder.model, chunks, scope, builder.db.reachable).graph
  {
    var rawDocs := LoadDocuments(scope, files, ledger, sha, load);
    if rawDocs.Err? {
      return Err(rawDocs.error);
    }
    if rawDocs.value == [] {
      return Ok(());
    }
    var chunks := split(rawDocs.value);
    store.silver := Some(chunks);
    StoreEmbeddings(chunks, store, embed);
    var ok;
    ghost var prompts;
    ok, prompts := builder.ProcessChunks(chunks, scope);
    r := Ok(());
  }
}
