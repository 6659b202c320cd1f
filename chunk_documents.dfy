/** Ingestion: cut each Markdown file at its image block, turn it into
    summary-prefixed chunk records, add them to the vector collection and
    count them. Markdown rendering, the summary and the text splitter are
    parameters; the collection is an object whose record lists grow. */
module ChunkDocuments {
  import opened Documents
  import opened Text

  /** The marker after which `clean_text` drops everything. */
  const SplitToken: string := "images={"

  /** `text.split("images={")[0]` when the marker occurs, else `text`. */
  function CleanText(text: string): (r: string)
    ensures !Contains(text, SplitToken) ==> r == text
    ensures Contains(text, SplitToken) ==>
      && |r| < |text| && r == text[..|r|]
      && OccursAt(text, SplitToken, |r|)
      && !Contains(r, SplitToken)
  {
    match FindFirst(text, SplitToken)
    case None => text
    case Some(k) =>
      PrefixAvoids(text, k);
      text[..k]
  }

  /** A prefix that ends before the first occurrence holds no occurrence. */
  lemma PrefixAvoids(text: string, k: nat)
    requires OccursAt(text, SplitToken, k)
    requires forall j :: 0 <= j < k ==> !OccursAt(text, SplitToken, j)
    ensures !Contains(text[..k], SplitToken)
  {
    var p := text[..k];
    forall j ensures !OccursAt(p, SplitToken, j) {
      if 0 <= j && j + |SplitToken| <= |p| {
        assert j < k && !OccursAt(text, SplitToken, j);
        assert p[j..j + |SplitToken|] == text[j..j + |SplitToken|];
      }
    }
  }

  /** Cleaning twice is cleaning once. */
  lemma CleanTextIdempotent(text: string)
    ensures CleanText(CleanText(text)) == CleanText(text)
  {
  }

  // ---------------------------------------------------------------------
  // Per-file records
  // ---------------------------------------------------------------------

  /** The three parallel lists passed to `collection.add`. */
  datatype Batch = Batch(documents: seq<string>, metadatas: seq<Metadata>, ids: seq<string>)

  /** `f"{file_path.stem}_chunk_{i}"`. */
  function ChunkId(stem: string, i: nat): string
  {
    stem + "_chunk_" + NatToString(i)
  }

  /** `{"source": file_path.name, "chunk_index": i}`. */
  function ChunkMetadata(name: string, i: nat): (m: Metadata)
    ensures m.Keys == {"source", "chunk_index"}
    ensures m["source"] == Str(name) && m["chunk_index"] == Int(i)
  {
    map["source" := Str(name), "chunk_index" := Int(i)]
  }

  /** The three comprehensions over `chunks`. */
  function FileBatch(summary: string, chunks: seq<string>, name: string, stem: string): (b: Batch)
    ensures |b.documents| == |chunks| && |b.metadatas| == |chunks| && |b.ids| == |chunks|
  {
    Batch(seq(|chunks|, i requires 0 <= i < |chunks| => summary + "\n\n" + chunks[i]),
          seq(|chunks|, i requires 0 <= i < |chunks| => ChunkMetadata(name, i)),
          seq(|chunks|, i requires 0 <= i < |chunks| => ChunkId(stem, i)))
  }

  /** Each record is the summary, a blank line and its chunk: both can be
      read back from the document text. Its metadata names the file and the
      chunk's position; its id is the stem and the position. */
  lemma FileBatchRecords(summary: string, chunks: seq<string>, name: string, stem: string, i: nat)
    requires i < |chunks|
    ensures var b := FileBatch(summary, chunks, name, stem);
      && b.documents[i][..|summary|] == summary
      && b.documents[i][|summary|..|summary| + 2] == "\n\n"
      && b.documents[i][|summary| + 2..] == chunks[i]
      && b.metadatas[i]["source"] == Str(name) && b.metadatas[i]["chunk_index"] == Int(i)
      && b.ids[i] == ChunkId(stem, i)
  {
    var d := FileBatch(summary, chunks, name, stem).documents[i];
    assert d == summary + "\n\n" + chunks[i];
  }

  /** Every character of a decimal numeral is a digit. */
  lemma {:induction false} NatToStringDigits(n: nat)
    ensures forall k :: 0 <= k < |NatToString(n)| ==> '0' <= NatToString(n)[k] <= '9'
  {
    if n >= 10 {
      NatToStringDigits(n / 10);
      var s := NatToString(n);
      assert s == NatToString(n / 10) + [DigitChar(n % 10)];
      forall k | 0 <= k < |s| ensures '0' <= s[k] <= '9' {
        if k < |s| - 1 {
          assert s[k] == NatToString(n / 10)[k];
        }
      }
    }
  }

  /** An id ends with `_` and then only the digits of the position. */
  lemma ChunkIdShape(stem: string, i: nat)
    ensures var id, d := ChunkId(stem, i), NatToString(i);
      && id[|id| - |d| - 1] == '_'
      && forall k :: |id| - |d| <= k < |id| ==> '0' <= id[k] <= '9'
  {
    var id, d := ChunkId(stem, i), NatToString(i);
    NatToStringDigits(i);
    assert forall k :: |id| - |d| <= k < |id| ==> id[k] == d[k - (|id| - |d|)];
  }

  /** An id determines its stem and its chunk position: the numeral holds no
      `_`, so the last `_chunk_` of the id is the one the id was built with. */
  lemma ChunkIdInjective(s1: string, i: nat, s2: string, j: nat)
    requires ChunkId(s1, i) == ChunkId(s2, j)
    ensures s1 == s2 && i == j
  {
    var id, d1, d2 := ChunkId(s1, i), NatToString(i), NatToString(j);
    ChunkIdShape(s1, i);
    ChunkIdShape(s2, j);
    assert |d1| == |d2|;
    assert s1 == id[..|s1|] == s2;
    assert d1 == id[|id| - |d1|..] == d2;
    NatToStringInjective(i, j);
  }

  /** No string occurs twice. */
  predicate DistinctStrings(s: seq<string>)
  {
    forall i, j :: 0 <= i < j < |s| ==> s[i] != s[j]
  }

  /** The ids of one file are pairwise distinct. */
  lemma FileIdsDistinct(summary: string, chunks: seq<string>, name: string, stem: string)
    ensures DistinctStrings(FileBatch(summary, chunks, name, stem).ids)
  {
    var ids := FileBatch(summary, chunks, name, stem).ids;
    forall i, j | 0 <= i < j < |ids| ensures ids[i] != ids[j] {
      if ids[i] == ids[j] {
        ChunkIdInjective(stem, i, stem, j);
      }
    }
  }

  // ---------------------------------------------------------------------
  // The ingestion loop
  // ---------------------------------------------------------------------

  /** A `*.md` file of the input directory: its stem and its raw text. */
  datatype SourceFile = SourceFile(stem: string, text: string)

  /** `file_path.name` of a file matched by `*.md`. */
  function FileName(f: SourceFile): string
  {
    f.stem + ".md"
  }

  /** `markdown_to_text`, `generate_summary` and `splitter.split_text`. */
  datatype Pipeline = Pipeline(toPlain: string -> string, summarize: string -> string, split: string -> seq<string>)

  /** The plain text the summary and the chunks of a file come from. */
  function PlainText(f: SourceFile, p: Pipeline): string
  {
    p.toPlain(CleanText(f.text))
  }

  /** The chunks of one file. */
  function FileChunks(f: SourceFile, p: Pipeline): seq<string>
  {
    p.split(PlainText(f, p))
  }

  /** The records added for one file. */
  function FileRecords(f: SourceFile, p: Pipeline): Batch
  {
    FileBatch(p.summarize(PlainText(f, p)), FileChunks(f, p), FileName(f), f.stem)
  }

  function AppendBatch(a: Batch, b: Batch): Batch
  {
    Batch(a.documents + b.documents, a.metadatas + b.metadatas, a.ids + b.ids)
  }

  /** The records of all files, in the order they are processed. */
  function AllRecords(files: seq<SourceFile>, p: Pipeline): Batch
  {
    if |files| == 0 then Batch([], [], [])
    else AppendBatch(AllRecords(files[..|files| - 1], p), FileRecords(files[|files| - 1], p))
  }

  /** The sum of `len(chunks)` over the files. */
  function TotalChunks(files: seq<SourceFile>, p: Pipeline): nat
  {
    if |files| == 0 then 0
    else TotalChunks(files[..|files| - 1], p) + |FileChunks(files[|files| - 1], p)|
  }

  /** One more file adds its records and its chunks at the end. */
  lemma AllRecordsSnoc(files: seq<SourceFile>, n: nat, p: Pipeline)
    requires n < |files|
    ensures AllRecords(files[..n + 1], p) == AppendBatch(AllRecords(files[..n], p), FileRecords(files[n], p))
    ensures TotalChunks(files[..n + 1], p) == TotalChunks(files[..n], p) + |FileChunks(files[n], p)|
  {
    assert files[..n + 1][..n] == files[..n];
  }

  /** The total counts exactly the records: one document, one metadata
      dictionary and one id per chunk. */
  lemma {:induction false} AllRecordsCount(files: seq<SourceFile>, p: Pipeline)
    ensures var b := AllRecords(files, p);
      |b.documents| == TotalChunks(files, p) && |b.metadatas| == TotalChunks(files, p)
      && |b.ids| == TotalChunks(files, p)
  {
    if |files| > 0 {
      AllRecordsCount(files[..|files| - 1], p);
    }
  }

  /** `id` is the id of some chunk of one of `files`. */
  ghost predicate IdOfSome(id: string, files: seq<SourceFile>)
  {
    exists k: int, i: nat :: 0 <= k < |files| && id == ChunkId(files[k].stem, i)
  }

  /** Every id of the records is built from the stem of one of the files. */
  lemma {:induction false} AllIdsFromStems(files: seq<SourceFile>, p: Pipeline)
    ensures forall x :: 0 <= x < |AllRecords(files, p).ids| ==> IdOfSome(AllRecords(files, p).ids[x], files)
  {
    if |files| > 0 {
      var init := files[..|files| - 1];
      var last := files[|files| - 1];
      AllIdsFromStems(init, p);
      var a, b := AllRecords(init, p).ids, FileRecords(last, p).ids;
      var ids := AllRecords(files, p).ids;
      assert ids == a + b;
      forall x | 0 <= x < |ids|
        ensures IdOfSome(ids[x], files)
      {
        if x < |a| {
          assert IdOfSome(a[x], init);
          var k: int, i: nat :| 0 <= k < |init| && a[x] == ChunkId(init[k].stem, i);
          assert files[k] == init[k];
          assert ids[x] == a[x];
        } else {
          assert ids[x] == ChunkId(files[|files| - 1].stem, x - |a|);
          assert 0 <= |files| - 1 < |files|;
        }
      }
    }
  }

  /** Different files have different stems. */
  predicate DistinctStems(files: seq<SourceFile>)
  {
    forall i, j :: 0 <= i < j < |files| ==> files[i].stem != files[j].stem
  }

  /** With distinct file names no id is added twice, across all files. */
  lemma {:induction false} AllIdsDistinct(files: seq<SourceFile>, p: Pipeline)
    requires DistinctStems(files)
    ensures DistinctStrings(AllRecords(files, p).ids)
  {
    if |files| > 0 {
      var init := files[..|files| - 1];
      var last := files[|files| - 1];
      assert DistinctStems(init);
      AllIdsDistinct(init, p);
      AllIdsFromStems(init, p);
      var f := FileRecords(last, p);
      FileIdsDistinct(p.summarize(PlainText(last, p)), FileChunks(last, p), FileName(last), last.stem);
      var a, b := AllRecords(init, p).ids, f.ids;
      var ids := a + b;
      assert ids == AllRecords(files, p).ids;
      forall x, y | 0 <= x < y < |ids| ensures ids[x] != ids[y] {
        if x < |a| && y >= |a| {
          var k: int, i: nat :| 0 <= k < |init| && a[x] == ChunkId(init[k].stem, i);
          assert ids[y] == ChunkId(last.stem, y - |a|);
          assert init[k] == files[k];
          if ids[x] == ids[y] {
            ChunkIdInjective(init[k].stem, i, last.stem, y - |a|);
          }
        } else if x >= |a| {
          assert ids[x] == b[x - |a|] && ids[y] == b[y - |a|];
        }
      }
    }
  }

  lemma AppendBatchAssoc(a: Batch, b: Batch, c: Batch)
    ensures AppendBatch(AppendBatch(a, b), c) == AppendBatch(a, AppendBatch(b, c))
  {
    assert (a.documents + b.documents) + c.documents == a.documents + (b.documents + c.documents);
    assert (a.metadatas + b.metadatas) + c.metadatas == a.metadatas + (b.metadatas + c.metadatas);
    assert (a.ids + b.ids) + c.ids == a.ids + (b.ids + c.ids);
  }

  /** The Chroma collection the records are added to. */
  class Collection {
    var documents: seq<string>
    var metadatas: seq<Metadata>
    var ids: seq<string>

    constructor ()
      ensures Records() == Batch([], [], [])
    {
      documents, metadatas, ids := [], [], [];
    }

    /** The three record lists stored so far. */
    function Records(): Batch
      reads this
    {
      Batch(documents, metadatas, ids)
    }

    /** `collection.add(documents=..., metadatas=..., ids=...)`. */
    method Add(b: Batch)
      modifies this
      ensures Records() == AppendBatch(old(Records()), b)
    {
      documents, metadatas, ids := documents + b.documents, metadatas + b.metadatas, ids + b.ids;
    }

    /** `collection.count()`. */
    function Count(): nat
      reads this
    {
      |ids|
    }
  }

  /** `main`: for each file, build its records, add them and add their
      number to `total_docs_added`. The collection grows by exactly the
      records of all files, in order, and the total is their number. */
  method Ingest(files: seq<SourceFile>, p: Pipeline, collection: Collection) returns (totalDocsAdded: nat)
    modifies collection
    ensures collection.Records() == AppendBatch(old(collection.Records()), AllRecords(files, p))
    ensures totalDocsAdded == TotalChunks(files, p)
    ensures collection.Count() == old(collection.Count()) + totalDocsAdded
  {
    ghost var start := collection.Records();
    totalDocsAdded := 0;
    for n := 0 to |files|
      invariant collection.Records() == AppendBatch(start, AllRecords(files[..n], p))
      invariant totalDocsAdded == TotalChunks(files[..n], p)
    {
      var plain := p.toPlain(CleanText(files[n].text));
      var summary := p.summarize(plain);
      var chunks := p.split(plain);
      var batch := FileBatch(summary, chunks, FileName(files[n]), files[n].stem);
      assert batch == FileRecords(files[n], p) && chunks == FileChunks(files[n], p);
      AllRecordsSnoc(files, n, p);
      AppendBatchAssoc(start, AllRecords(files[..n], p), batch);
      collection.Add(batch);
      totalDocsAdded := totalDocsAdded + |chunks|;
    }
    assert files[..|files|] == files;
    AllRecordsCount(files, p);
  }
}
