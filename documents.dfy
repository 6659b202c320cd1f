/** Shared data model: metadata values, metadata dictionaries and the
    langchain `Document` objects that flow through the retrieval graph. */
module Documents {

  /** Python's `None`-or-value. */
  datatype Option<T> = None | Some(value: T)

  /** The scalar values that appear in chunk metadata: strings (`source`,
      `retrieval_method`), integers (`chunk_index`) and floats (the scores). */
  datatype Value = Str(s: string) | Int(i: int) | Num(r: real) | Bool(b: bool)

  /** A metadata dictionary; Python's key order is not modelled. */
  type Metadata = map<string, Value>

  /** `meta or {}`: a missing metadata dictionary becomes the empty one. */
  function OrEmpty(meta: Option<Metadata>): (m: Metadata)
    ensures meta.None? ==> m == map[]
    ensures meta.Some? ==> m == meta.value
  {
    match meta
    case None => map[]
    case Some(d) => d
  }

  /** A langchain `Document`: its text never changes, its metadata
      dictionary is updated in place by the reranking node. */
  class Document {
    const pageContent: string
    var metadata: Metadata

    constructor (pageContent: string, metadata: Metadata)
      ensures this.pageContent == pageContent && this.metadata == metadata
    {
      this.pageContent := pageContent;
      this.metadata := metadata;
    }
  }

  /** `[doc.page_content for doc in docs]`. */
  function PageContents(docs: seq<Document>): (texts: seq<string>)
    ensures |texts| == |docs|
    ensures forall i :: 0 <= i < |docs| ==> texts[i] == docs[i].pageContent
  {
    seq(|docs|, i requires 0 <= i < |docs| => docs[i].pageContent)
  }

  /** No object occurs twice in `docs`. */
  predicate Distinct(docs: seq<Document>)
  {
    forall i, j :: 0 <= i < j < |docs| ==> docs[i] != docs[j]
  }

  /** Two lists of distinct objects with no object in common concatenate to one. */
  lemma DistinctAppend(a: seq<Document>, b: seq<Document>)
    requires Distinct(a) && Distinct(b)
    requires forall i, j :: 0 <= i < |a| && 0 <= j < |b| ==> a[i] != b[j]
    ensures Distinct(a + b)
  {
    var ab := a + b;
    forall i, j | 0 <= i < j < |ab| ensures ab[i] != ab[j] {
      if j >= |a| {
        assert ab[j] == b[j - |a|];
        if i >= |a| { assert ab[i] == b[i - |a|]; }
      }
    }
  }
}
