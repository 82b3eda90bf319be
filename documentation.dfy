/** Documentation search result formatting: `DocumentationService.search_documentation`
 *  (models/documentation_service.py) and the two `_search_documentation` copies
 *  in models/tool_handler.py and models/chat_tool_router.py. All three ask the
 *  RAG service for the top 3 documents and turn them into one result dictionary;
 *  they differ in the key of the score and in the "nothing found" text, and the
 *  service's copy also prints each score with `:.3f` inside its `try`. */
module Documentation {
  import opened Values

  /** One document as `RAGService.search` returns it; the score is whatever the
   *  index returned for the match. */
  datatype Doc = Doc(text: Value, source: Value, score: Value)

  /** The two constants in which the copies differ. */
  datatype Format = Format(scoreKey: string, emptyMessage: string)

  /** models/tool_handler.py and models/chat_tool_router.py. */
  const HandlerFormat: Format := Format("score", "No relevant documentation found")

  /** models/documentation_service.py. */
  const ServiceFormat: Format := Format("relevance_score", "No relevant documentation found for this query.")

  /** Every copy asks for `top_k=3`. */
  const TopK: nat := 3

  /** `rag_service.search(query, top_k)`: the documents, or the exception raised. */
  type Search = (Value, nat) -> Outcome<seq<Doc>>

  /** The entry for one document: its source, its text as `content`, its score. */
  function Entry(f: Format, d: Doc): (e: Value)
    ensures Index(e, "source") == Some(d.source)
    ensures Index(e, "content") == Some(d.text)
    ensures f.scoreKey != "source" && f.scoreKey != "content" ==> Index(e, f.scoreKey) == Some(d.score)
  {
    LookupCons("source", d.source, [("content", d.text), (f.scoreKey, d.score)], "content");
    LookupCons("content", d.text, [(f.scoreKey, d.score)], f.scoreKey);
    LookupCons("source", d.source, [("content", d.text), (f.scoreKey, d.score)], f.scoreKey);
    Obj([("source", d.source), ("content", d.text), (f.scoreKey, d.score)])
  }

  function Failure(message: string): Value {
    Obj([("success", Bool(false)), ("error", Str(message))])
  }

  /** No documents: success, a message, and no `results` key at all. */
  function NothingFound(f: Format): (r: Value)
    ensures Index(r, "success") == Some(Bool(true))
    ensures Index(r, "message") == Some(Str(f.emptyMessage))
    ensures Index(r, "results") == None
  {
    LookupCons("success", Bool(true), [("message", Str(f.emptyMessage))], "message");
    LookupCons("success", Bool(true), [("message", Str(f.emptyMessage))], "results");
    LookupCons("message", Str(f.emptyMessage), [], "results");
    Obj([("success", Bool(true)), ("message", Str(f.emptyMessage))])
  }

  function Found(entries: seq<Value>): (r: Value)
    ensures Index(r, "success") == Some(Bool(true))
    ensures Index(r, "results") == Some(Arr(entries))
  {
    LookupCons("success", Bool(true), [("results", Arr(entries))], "results");
    Obj([("success", Bool(true)), ("results", Arr(entries))])
  }

  /** The result dictionary for an outcome of the search, as a value. */
  function Formatted(f: Format, docs: Outcome<seq<Doc>>): Value {
    match docs
    case Raised(e) => Failure(e)
    case Returned(ds) =>
      if ds == [] then NothingFound(f) else Found(seq(|ds|, i requires 0 <= i < |ds| => Entry(f, ds[i])))
  }

  /** The `for doc in docs: result["results"].append(...)` loop: one entry per
   *  document, in order, each copying source, text and score. */
  method Entries(f: Format, docs: seq<Doc>) returns (entries: seq<Value>)
    ensures |entries| == |docs|
    ensures forall i | 0 <= i < |docs| ::
      && Index(entries[i], "source") == Some(docs[i].source)
      && Index(entries[i], "content") == Some(docs[i].text)
      && (f.scoreKey != "source" && f.scoreKey != "content" ==> Index(entries[i], f.scoreKey) == Some(docs[i].score))
      && entries[i] == Entry(f, docs[i])
  {
    entries := [];
    for i := 0 to |docs|
      invariant |entries| == i
      invariant forall k | 0 <= k < i :: entries[k] == Entry(f, docs[k])
    {
      entries := entries + [Entry(f, docs[i])];
    }
  }

  /** The search and its formatting, shared by the three copies: an exception
   *  becomes `success: False` with its text, no documents a message and no
   *  `results` key, and otherwise one entry per document in order. */
  method SearchWith(f: Format, search: Search, query: Value) returns (r: Value)
    ensures r == Formatted(f, search(query, TopK))
    ensures search(query, TopK).Raised? ==> r == Failure(search(query, TopK).message)
    ensures search(query, TopK) == Returned([]) ==>
      Index(r, "success") == Some(Bool(true)) && Index(r, "message") == Some(Str(f.emptyMessage))
      && Index(r, "results") == None
    ensures search(query, TopK).Returned? && search(query, TopK).value != [] ==>
      var ds := search(query, TopK).value;
      Index(r, "success") == Some(Bool(true)) &&
      exists es :: Index(r, "results") == Some(Arr(es)) && |es| == |ds| &&
        forall i | 0 <= i < |ds| :: es[i] == Entry(f, ds[i])
  {
    var docs := search(query, TopK);
    match docs {
      case Raised(e) =>
        r := Failure(e);
      case Returned(ds) =>
        if ds == [] {
          r := NothingFound(f);
        } else {
          var es := Entries(f, ds);
          assert es == seq(|ds|, i requires 0 <= i < |ds| => Entry(f, ds[i]));
          r := Found(es);
        }
    }
  }

  /** `format(score, '.3f')` in the print of models/documentation_service.py:34:
   *  None when it formats (ints, floats and bools), else the text of the
   *  exception it raises. */
  function ScoreFormatError(score: Value): (e: Option<string>)
    ensures e.None? <==> score.Int? || score.Float? || score.Bool?
  {
    match score
    case Null => Some("unsupported format string passed to NoneType.__format__")
    case Str(_) => Some("Unknown format code 'f' for object of type 'str'")
    case Arr(_) => Some("unsupported format string passed to list.__format__")
    case Obj(_) => Some("unsupported format string passed to dict.__format__")
    case _ => None
  }

  /** The exception of the first document whose score does not format. */
  function FirstScoreError(docs: seq<Doc>): Option<string>
    decreases |docs|
  {
    if docs == [] then None
    else if ScoreFormatError(docs[0].score).Some? then ScoreFormatError(docs[0].score)
    else FirstScoreError(docs[1..])
  }

  /** The wait for an exception ends at the first document whose score does
   *  not format, and only there. */
  lemma {:induction false} FirstScoreErrorIsFirst(docs: seq<Doc>)
    ensures FirstScoreError(docs).None? <==> forall i | 0 <= i < |docs| :: ScoreFormatError(docs[i].score).None?
    ensures FirstScoreError(docs).Some? ==> exists i | 0 <= i < |docs| ::
      && (forall j | 0 <= j < i :: ScoreFormatError(docs[j].score).None?)
      && FirstScoreError(docs) == ScoreFormatError(docs[i].score)
    decreases |docs|
  {
    if docs != [] && ScoreFormatError(docs[0].score).None? {
      var tail := docs[1..];
      FirstScoreErrorIsFirst(tail);
      forall i | 0 < i < |docs| ensures docs[i] == tail[i - 1] {
      }
      if FirstScoreError(tail).Some? {
        var i :| 0 <= i < |tail| && (forall j | 0 <= j < i :: ScoreFormatError(tail[j].score).None?)
          && FirstScoreError(tail) == ScoreFormatError(tail[i].score);
        assert docs[i + 1] == tail[i];
      }
    }
  }

  /** What `search_documentation` returns: the other copies' result, except
   *  that a score that does not format raises inside the `try`, after its
   *  entry is appended, and the whole reply becomes `success: False` with the
   *  exception's text. */
  function ServiceResult(docs: Outcome<seq<Doc>>): Value {
    match docs
    case Raised(e) => Failure(e)
    case Returned(ds) =>
      if ds == [] then NothingFound(ServiceFormat)
      else match FirstScoreError(ds)
        case Some(e) => Failure(e)
        case None => Formatted(ServiceFormat, docs)
  }

  /** The service's reply is the common formatting exactly when no score fails
   *  to format, and otherwise the failure of the first such score. */
  lemma ServiceResultCases(docs: Outcome<seq<Doc>>)
    ensures ServiceResult(docs) == Formatted(ServiceFormat, docs) <==>
      (docs.Raised? || forall i | 0 <= i < |docs.value| :: ScoreFormatError(docs.value[i].score).None?)
    ensures docs.Returned? && FirstScoreError(docs.value).Some? ==>
      && Index(ServiceResult(docs), "success") == Some(Bool(false))
      && ServiceResult(docs) == Failure(FirstScoreError(docs.value).value)
  {
    if docs.Returned? {
      FirstScoreErrorIsFirst(docs.value);
      if FirstScoreError(docs.value).Some? {
        assert docs.value != [];
        assert Index(Formatted(ServiceFormat, docs), "success") == Some(Bool(true));
        LookupCons("success", Bool(false), [("error", Str(FirstScoreError(docs.value).value))], "success");
      }
    }
  }

  /** `DocumentationService.search_documentation` (models/documentation_service.py:9-45):
   *  the loop appends each document's entry and then formats its score. */
  method SearchDocumentation(search: Search, query: Value) returns (r: Value)
    ensures r == ServiceResult(search(query, TopK))
  {
    var docs := search(query, TopK);
    match docs {
      case Raised(e) =>
        r := Failure(e);
      case Returned(ds) =>
        if ds == [] {
          r := NothingFound(ServiceFormat);
          return;
        }
        var entries: seq<Value> := [];
        for i := 0 to |ds|
          invariant |entries| == i
          invariant forall k | 0 <= k < i :: entries[k] == Entry(ServiceFormat, ds[k])
          invariant FirstScoreError(ds[i..]) == FirstScoreError(ds)
        {
          assert ds[i..][1..] == ds[i + 1..];
          entries := entries + [Entry(ServiceFormat, ds[i])];
          var failed := ScoreFormatError(ds[i].score);
          if failed.Some? {
            r := Failure(failed.value);
            return;
          }
        }
        assert ds[|ds|..] == [];
        assert entries == seq(|ds|, i requires 0 <= i < |ds| => Entry(ServiceFormat, ds[i]));
        r := Found(entries);
    }
  }
}
