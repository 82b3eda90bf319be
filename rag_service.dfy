/** models/rag_service.py: building one vector per document chunk, uploading
 *  them in batches of a hundred, turning the index's matches into search
 *  results, and deciding at start-up whether to load the documents. The
 *  embedding service and the vector index are outside the model: an embedding
 *  is a function of the text, an upload is a batch recorded in order, a query
 *  returns the index's matches or raises. */
module RagService {
  import opened Values
  import opened DocumentLoading
  import Documentation

  const BatchSize: nat := 100
  const MetadataTextLimit: nat := 1000

  /** The embedding's numbers, only ever copied. */
  type Embedding = seq<Value>

  /** `{'id': ..., 'values': ..., 'metadata': {'text': ..., 'source': ..., 'chunk_index': ...}}`. */
  datatype Vector = Vector(id: string, values: Embedding, text: string, source: string, chunkIndex: nat)

  /** `text[:1000]`. */
  function Truncated(text: string): (t: string)
    ensures |t| <= MetadataTextLimit && |t| <= |text| && t == text[..|t|]
    ensures |text| <= MetadataTextLimit ==> t == text
    ensures |text| > MetadataTextLimit ==> |t| == MetadataTextLimit
  {
    if |text| <= MetadataTextLimit then text else text[..MetadataTextLimit]
  }

  /** Lines 79-89: the vector for one document. */
  function VectorOf(doc: Document, embed: string -> Embedding): (v: Vector)
    ensures v.id == doc.id && v.values == embed(doc.text)
    ensures v.text == Truncated(doc.text)
    ensures v.source == doc.source && v.chunkIndex == doc.chunkIndex
  {
    Vector(doc.id, embed(doc.text), Truncated(doc.text), doc.source, doc.chunkIndex)
  }

  function Vectors(documents: seq<Document>, embed: string -> Embedding): (vs: seq<Vector>)
    ensures |vs| == |documents|
    ensures forall i | 0 <= i < |documents| :: vs[i] == VectorOf(documents[i], embed)
  {
    seq(|documents|, i requires 0 <= i < |documents| => VectorOf(documents[i], embed))
  }

  /** The uploads for a list of vectors: slices of a hundred, the last one
   *  shorter when the count is not a multiple of a hundred. */
  function Batches(vs: seq<Vector>): seq<seq<Vector>>
    decreases |vs|
  {
    if vs == [] then []
    else if |vs| <= BatchSize then [vs]
    else [vs[..BatchSize]] + Batches(vs[BatchSize..])
  }

  function Concat(batches: seq<seq<Vector>>): seq<Vector> {
    if batches == [] then [] else batches[0] + Concat(batches[1..])
  }

  /** `store_documents(documents)` (lines 73-99): the batches it uploads, in
   *  the order it uploads them. */
  method StoreDocuments(documents: seq<Document>, embed: string -> Embedding) returns (upserts: seq<seq<Vector>>)
    ensures upserts == Batches(Vectors(documents, embed))
  {
    var vectors := [];
    for k := 0 to |documents|
      invariant vectors == Vectors(documents[..k], embed)
    {
      VectorsGrow(documents, k, embed);
      vectors := vectors + [VectorOf(documents[k], embed)];
    }
    assert documents[..|documents|] == documents;
    upserts := [];
    var i := 0;
    assert vectors[0..] == vectors && [] + Batches(vectors) == Batches(vectors);
    while i < |vectors|
      invariant i < |vectors| ==> upserts + Batches(vectors[i..]) == Batches(vectors)
      invariant i >= |vectors| ==> upserts == Batches(vectors)
      decreases |vectors| - i
    {
      var batch := vectors[i..if i + BatchSize < |vectors| then i + BatchSize else |vectors|];
      if i + BatchSize < |vectors| {
        BatchStep(vectors, i, upserts);
      } else {
        LastBatch(vectors, i, upserts);
      }
      upserts := upserts + [batch];
      i := i + BatchSize;
    }
    if vectors == [] {
      assert upserts == [];
    }
  }

  lemma VectorsGrow(documents: seq<Document>, k: nat, embed: string -> Embedding)
    requires k < |documents|
    ensures Vectors(documents[..k + 1], embed) == Vectors(documents[..k], embed) + [VectorOf(documents[k], embed)]
  {
  }

  /** One upload of the batch loop that leaves vectors for later. */
  lemma BatchStep(vectors: seq<Vector>, i: nat, upserts: seq<seq<Vector>>)
    requires i + BatchSize < |vectors| && upserts + Batches(vectors[i..]) == Batches(vectors)
    ensures (upserts + [vectors[i..i + BatchSize]]) + Batches(vectors[i + BatchSize..]) == Batches(vectors)
  {
    var rest, batch, later := vectors[i..], vectors[i..i + BatchSize], vectors[i + BatchSize..];
    assert rest[..BatchSize] == batch && rest[BatchSize..] == later;
    assert Batches(rest) == [batch] + Batches(later);
    assert (upserts + [batch]) + Batches(later) == upserts + ([batch] + Batches(later));
  }

  /** The last upload of the batch loop. */
  lemma LastBatch(vectors: seq<Vector>, i: nat, upserts: seq<seq<Vector>>)
    requires i < |vectors| <= i + BatchSize && upserts + Batches(vectors[i..]) == Batches(vectors)
    ensures upserts + [vectors[i..|vectors|]] == Batches(vectors)
  {
    assert vectors[i..|vectors|] == vectors[i..];
  }

  /** Uploading loses, repeats and reorders nothing: the batches put
   *  together are the vector list. */
  lemma {:induction false} BatchesConcat(vs: seq<Vector>)
    ensures Concat(Batches(vs)) == vs
    decreases |vs|
  {
    if |vs| > BatchSize {
      BatchesConcat(vs[BatchSize..]);
      var bs := Batches(vs);
      assert bs[0] == vs[..BatchSize] && bs[1..] == Batches(vs[BatchSize..]);
      assert vs[..BatchSize] + vs[BatchSize..] == vs;
    } else if vs != [] {
      assert Batches(vs)[1..] == [];
      assert vs + [] == vs;
    }
  }

  /** Every batch holds between one and a hundred vectors, all but the last
   *  exactly a hundred, and there are ceil(n / 100) of them, the total the
   *  progress line prints as `(n - 1) // 100 + 1`. */
  lemma {:induction false} BatchSizes(vs: seq<Vector>)
    ensures var bs := Batches(vs);
      && (forall k | 0 <= k < |bs| :: 1 <= |bs[k]| <= BatchSize)
      && (forall k | 0 <= k < |bs| - 1 :: |bs[k]| == BatchSize)
      && |bs| == (|vs| + BatchSize - 1) / BatchSize
      && |bs| == (|vs| - 1) / BatchSize + 1
    decreases |vs|
  {
    if |vs| > BatchSize {
      BatchSizes(vs[BatchSize..]);
      var bs := Batches(vs);
      assert bs[1..] == Batches(vs[BatchSize..]);
      forall k | 1 <= k < |bs|
        ensures bs[k] == Batches(vs[BatchSize..])[k - 1]
      {
      }
    }
  }

  // ---------------------------------------------------------------------------
  // Search.

  /** Lines 115-119: one result from one match: `match['metadata']['text']`,
   *  `match['metadata']['source']` and `match['score']`, or what the first
   *  failing subscript raises. */
  function Result(m: Value): Outcome<Documentation.Doc> {
    match Subscript(m, "metadata")
    case Raised(e) => Raised(e)
    case Returned(metadata) =>
      match Subscript(metadata, "text")
      case Raised(e) => Raised(e)
      case Returned(text) =>
        match Subscript(metadata, "source")
        case Raised(e) => Raised(e)
        case Returned(source) =>
          match Subscript(m, "score")
          case Raised(e) => Raised(e)
          case Returned(score) => Returned(Documentation.Doc(text, source, score))
  }

  /** The results for the index's matches: one per match, in match order, or
   *  the error of the first match that lacks a field. */
  function Results(matches: seq<Value>): Outcome<seq<Documentation.Doc>> {
    if matches == [] then Returned([])
    else
      match Result(matches[0])
      case Raised(e) => Raised(e)
      case Returned(d) =>
        match Results(matches[1..])
        case Raised(e) => Raised(e)
        case Returned(rest) => Returned([d] + rest)
  }

  /** The search returns exactly when every match has its fields, and then
   *  one record per match, in match order; otherwise the error of one of them. */
  lemma {:induction false} ResultsPerMatch(matches: seq<Value>)
    ensures Results(matches).Returned? <==> forall i | 0 <= i < |matches| :: Result(matches[i]).Returned?
    ensures Results(matches).Returned? ==>
      |Results(matches).value| == |matches| && forall i | 0 <= i < |matches| :: Results(matches).value[i] == Result(matches[i]).value
    ensures Results(matches).Raised? ==> exists i | 0 <= i < |matches| :: Result(matches[i]) == Raised(Results(matches).message)
  {
    if matches != [] {
      ResultsPerMatch(matches[1..]);
      assert forall i | 0 <= i < |matches[1..]| :: matches[1..][i] == matches[i + 1];
      if Result(matches[0]).Returned? && Results(matches[1..]).Raised? {
        var i :| 0 <= i < |matches[1..]| && Result(matches[1..][i]) == Raised(Results(matches[1..]).message);
        assert Result(matches[i + 1]) == Raised(Results(matches).message);
      }
    }
  }

  /** A match that lacks a field ends the search with its error, whatever the
   *  matches after it hold. */
  lemma {:induction false} FirstFailureRaised(matches: seq<Value>, i: nat)
    requires i < |matches| && Result(matches[i]).Raised?
    requires forall j | 0 <= j < i :: Result(matches[j]).Returned?
    ensures Results(matches) == Raised(Result(matches[i]).message)
  {
    if i > 0 {
      assert forall j | 0 <= j < i - 1 :: matches[1..][j] == matches[j + 1];
      FirstFailureRaised(matches[1..], i - 1);
      assert matches[1..][i - 1] == matches[i];
    }
  }

  /** The results so far in front of those of the remaining matches. */
  function Prepended(documents: seq<Documentation.Doc>, r: Outcome<seq<Documentation.Doc>>): Outcome<seq<Documentation.Doc>> {
    if r.Returned? then Returned(documents + r.value) else r
  }

  /** The query's embedding, or what the embedding call raised. */
  type Embedder = Value -> Outcome<Embedding>

  /** `index.query(vector, top_k, include_metadata=True)['matches']`. */
  type IndexQuery = (Embedding, nat) -> Outcome<seq<Value>>

  /** What `search` returns or raises. */
  function SearchResult(query: Value, topK: nat, embed: Embedder, index: IndexQuery): Outcome<seq<Documentation.Doc>> {
    match embed(query)
    case Raised(e) => Raised(e)
    case Returned(e) =>
      match index(e, topK)
      case Raised(err) => Raised(err)
      case Returned(matches) => Results(matches)
  }

  /** `search` as the documentation services call it. */
  function AsSearch(embed: Embedder, index: IndexQuery): Documentation.Search {
    (query: Value, topK: nat) => SearchResult(query, topK, embed, index)
  }

  /** `search(query, top_k)` (lines 101-122). */
  method Search(query: Value, topK: nat, embed: Embedder, index: IndexQuery) returns (r: Outcome<seq<Documentation.Doc>>)
    ensures r == SearchResult(query, topK, embed, index)
  {
    var e := embed(query);
    if e.Raised? {
      return Raised(e.message);
    }
    var results := index(e.value, topK);
    if results.Raised? {
      return Raised(results.message);
    }
    r := Collect(results.value);
  }

  /** The loop of lines 113-119 over the index's matches. */
  method Collect(matches: seq<Value>) returns (r: Outcome<seq<Documentation.Doc>>)
    ensures r == Results(matches)
  {
    var documents: seq<Documentation.Doc> := [];
    assert matches[0..] == matches;
    if Results(matches).Returned? {
      assert [] + Results(matches).value == Results(matches).value;
    }
    for i := 0 to |matches|
      invariant Results(matches) == Prepended(documents, Results(matches[i..]))
    {
      assert matches[i..][0] == matches[i] && matches[i..][1..] == matches[i + 1..];
      var d := Result(matches[i]);
      if d.Raised? {
        return Raised(d.message);
      }
      var rest := Results(matches[i + 1..]);
      if rest.Returned? {
        assert (documents + [d.value]) + rest.value == documents + ([d.value] + rest.value);
      }
      documents := documents + [d.value];
    }
    assert matches[|matches|..] == [] && documents + [] == documents;
    return Returned(documents);
  }

  // ---------------------------------------------------------------------------
  // Start-up.

  /** What `_auto_load_documents` does. */
  datatype LoadPlan = NoFolder | NoDocuments | Store(documents: seq<Document>)

  /** What `_check_and_setup` does. */
  datatype Setup = AutoLoad(plan: LoadPlan) | Ready(count: Value) | CheckFailed(error: string)

  /** `vector_count == 0`: an int, bool or float zero. */
  predicate IsZero(v: Value) {
    (v.Int? || v.Bool? || v.Float?) && !Truthy(v)
  }

  /** `_auto_load_documents` (lines 39-62) over the documents folder's
   *  listing, with the loader's 500/50 configuration. */
  function AutoLoadDocuments(folderExists: bool, files: seq<string>, read: string -> string): (p: LoadPlan)
    ensures p.Store? ==>
      && folderExists && p.documents != []
      && p.documents == AllDocuments(files, read, DefaultChunkSize, DefaultChunkOverlap)
    ensures folderExists && AllDocuments(files, read, DefaultChunkSize, DefaultChunkOverlap) != [] ==> p.Store?
    ensures !folderExists <==> p.NoFolder?
  {
    if !folderExists then NoFolder
    else
      var documents := AllDocuments(files, read, DefaultChunkSize, DefaultChunkOverlap);
      if documents == [] then NoDocuments else Store(documents)
  }

  /** `_check_and_setup` (lines 24-37) with the index statistics, or the error
   *  reading them raised. Documents are loaded exactly when the index reports
   *  no vectors, or reports no count at all. */
  function CheckAndSetup(stats: Outcome<seq<(string, Value)>>, folderExists: bool, files: seq<string>,
                         read: string -> string): (s: Setup)
    ensures s.AutoLoad? <==> stats.Returned? && IsZero(GetOr(stats.value, "total_vector_count", Int(0)))
    ensures stats.Returned? && Lookup(stats.value, "total_vector_count").None? ==> s.AutoLoad?
    ensures s.AutoLoad? ==> s.plan == AutoLoadDocuments(folderExists, files, read)
    ensures stats.Raised? ==> s == CheckFailed(stats.message)
  {
    match stats
    case Raised(e) => CheckFailed(e)
    case Returned(st) =>
      var count := GetOr(st, "total_vector_count", Int(0));
      if IsZero(count) then AutoLoad(AutoLoadDocuments(folderExists, files, read)) else Ready(count)
  }
}
