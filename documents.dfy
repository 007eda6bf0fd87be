/** langchain `Document`s and the black boxes that consume or produce them. */
module Documents {
  import opened Wrappers

  /** A loaded document or a chunk of one: its text and the file it came from. */
  datatype Document = Document(pageContent: string, source: string)

  /** `RecursiveCharacterTextSplitter(chunk_size, chunk_overlap).split_documents`. */
  type Splitter = seq<Document> -> seq<Document>

  /** A FAISS index built from chunks. */
  datatype VectorIndex = VectorIndex(chunks: seq<Document>)

  /** `FAISS.from_documents(chunks, embedder)`: `false` when building the index raises. */
  type Embedder = seq<Document> -> bool

  function PageContents(docs: seq<Document>): (r: seq<string>)
    ensures |r| == |docs| && forall i :: 0 <= i < |docs| ==> r[i] == docs[i].pageContent
  {
    if docs == [] then [] else [docs[0].pageContent] + PageContents(docs[1..])
  }

  /** `texts` are the raw texts of the first `|texts|` chunks, in order: what a builder sent to the
      model when it passes every chunk on unchanged. */
  predicate SentInOrder(texts: seq<string>, chunks: seq<Document>) {
    |texts| <= |chunks| && forall k :: 0 <= k < |texts| ==> texts[k] == chunks[k].pageContent
  }

  lemma {:induction false} SentInOrderStep(texts: seq<string>, chunks: seq<Document>)
    requires SentInOrder(texts, chunks) && |texts| < |chunks|
    ensures SentInOrder(texts + [chunks[|texts|].pageContent], chunks)
  {
  }
}
