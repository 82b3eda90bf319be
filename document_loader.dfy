/** models/document_loader.py: splitting a text into overlapping windows and
 *  turning the windows of each `.txt` file into documents with ids. Reading a
 *  file is a function from its name to its contents; the folder listing is the
 *  sequence of names in the order the operating system gives them. */
module DocumentLoading {
  import opened Values
  import opened Text

  const DefaultChunkSize: int := 500
  const DefaultChunkOverlap: int := 50

  /** `{'text': ..., 'start': ..., 'end': ...}`. */
  datatype Chunk = Chunk(text: string, start: int, end: int)

  /** `{'id': ..., 'text': ..., 'metadata': {'source': ..., 'chunk_index': ...}}`. */
  datatype Document = Document(id: string, text: string, source: string, chunkIndex: nat)

  /** Python's `s[i:j]` for a start that is not negative: a negative end
   *  counts from the back, and both ends are clamped to the string. */
  function Slice(s: string, i: nat, j: int): string {
    var lo := if i < |s| then i else |s|;
    var hi := if j < 0 then (if j + |s| < 0 then 0 else j + |s|) else if j < |s| then j else |s|;
    if hi <= lo then [] else s[lo..hi]
  }

  /** For ends in order, the slice is the stretch between the clamped ends,
   *  and it is never longer than `j - i`. */
  lemma SliceIsClamped(s: string, i: nat, j: int)
    ensures i <= j ==> Slice(s, i, j) == s[if i < |s| then i else |s|..if j < |s| then j else |s|]
    ensures j >= 0 ==> |Slice(s, i, j)| <= if j - i < 0 then 0 else j - i
  {
  }

  /** The window at `start`: its text, and the end recorded as `start +
   *  chunk_size`, beyond the text's end for the last windows. */
  function Window(text: string, size: int, start: nat): Chunk {
    Chunk(Slice(text, start, start + size), start, start + size)
  }

  /** A window is kept unless it is nothing but whitespace. */
  function Kept(w: Chunk): (r: seq<Chunk>)
    ensures w in r <==> !IsBlank(w.text)
    ensures forall x | x in r :: x == w
  {
    if IsBlank(w.text) then [] else [w]
  }

  /** The kept windows from `start` on, moving by `size - overlap` each time. */
  function ChunksFrom(text: string, size: int, overlap: int, start: nat): seq<Chunk>
    requires size > overlap
    decreases |text| - start
  {
    if start >= |text| then []
    else
      Kept(Window(text, size, start)) + ChunksFrom(text, size, overlap, start + (size - overlap))
  }

  /** `chunk_text`'s loop invariant at `start`: what is gathered, followed by
   *  the windows still to come, is the whole result. */
  predicate Gathered(text: string, size: int, overlap: int, start: nat, chunks: seq<Chunk>, all: seq<Chunk>)
    requires size > overlap
  {
    chunks + ChunksFrom(text, size, overlap, start) == all
  }

  /** `ChunksFrom` unfolded once, for a window that is kept. */
  lemma KeptFirst(text: string, size: int, overlap: int, start: nat, chunk: string)
    requires size > overlap && start < |text|
    requires chunk == Slice(text, start, start + size) && !IsBlank(chunk)
    ensures ChunksFrom(text, size, overlap, start) == [Chunk(chunk, start, start + size)] + ChunksFrom(text, size, overlap, start + (size - overlap))
  {
  }

  /** `ChunksFrom` unfolded once, for a window that is dropped. */
  lemma DroppedFirst(text: string, size: int, overlap: int, start: nat)
    requires size > overlap && start < |text|
    requires IsBlank(Slice(text, start, start + size))
    ensures ChunksFrom(text, size, overlap, start) == ChunksFrom(text, size, overlap, start + (size - overlap))
  {
    assert [] + ChunksFrom(text, size, overlap, start + (size - overlap)) == ChunksFrom(text, size, overlap, start + (size - overlap));
  }

  lemma AppendAssoc<T>(a: seq<T>, b: seq<T>, c: seq<T>)
    ensures a + (b + c) == (a + b) + c
  {
  }

  /** A turn of the loop that keeps its window. */
  lemma KeepStep(text: string, size: int, overlap: int, start: nat, next: nat, chunk: string, before: seq<Chunk>, chunks: seq<Chunk>, all: seq<Chunk>)
    requires size > overlap && start < |text| && next == start + (size - overlap)
    requires chunk == Slice(text, start, start + size) && !IsBlank(chunk)
    requires chunks == before + [Chunk(chunk, start, start + size)]
    requires Gathered(text, size, overlap, start, before, all)
    ensures Gathered(text, size, overlap, next, chunks, all)
  {
    KeptFirst(text, size, overlap, start, chunk);
    AppendAssoc(before, [Chunk(chunk, start, start + size)], ChunksFrom(text, size, overlap, next));
  }

  /** A turn of the loop that drops a blank window. */
  lemma SkipStep(text: string, size: int, overlap: int, start: nat, next: nat, chunks: seq<Chunk>, all: seq<Chunk>)
    requires size > overlap && start < |text| && next == start + (size - overlap)
    requires IsBlank(Slice(text, start, start + size))
    requires Gathered(text, size, overlap, start, chunks, all)
    ensures Gathered(text, size, overlap, next, chunks, all)
  {
    DroppedFirst(text, size, overlap, start);
  }

  lemma AllGathered(text: string, size: int, overlap: int, start: nat, chunks: seq<Chunk>, all: seq<Chunk>)
    requires size > overlap && start >= |text|
    requires Gathered(text, size, overlap, start, chunks, all)
    ensures chunks == all
  {
    assert chunks + [] == chunks;
  }

  /** What `chunk_text` returns. The loop only ends for a step that moves
   *  forward, unless the text is empty and it never starts. */
  function Chunks(text: string, size: int, overlap: int): seq<Chunk>
    requires |text| == 0 || size > overlap
  {
    if |text| == 0 then [] else ChunksFrom(text, size, overlap, 0)
  }

  /** The value of `start` in `chunk_text` after n passes of its loop. */
  function StartAfter(size: int, overlap: int, n: nat): int {
    if n == 0 then 0 else StartAfter(size, overlap, n - 1) + (size - overlap)
  }

  /** With an overlap not below the size the step does not move forward: on a
   *  non-empty text the guard `start < len(text)` still holds after every
   *  pass, so `chunk_text` never returns. */
  lemma {:induction false} ChunkTextNeverEnds(text: string, size: int, overlap: int, n: nat)
    requires |text| > 0 && size <= overlap
    ensures StartAfter(size, overlap, n) <= 0 < |text|
  {
    if n > 0 {
      ChunkTextNeverEnds(text, size, overlap, n - 1);
    }
  }

  /** The window starts from `start` below `n`: `start`, `start + step`, ... */
  function WindowStarts(start: nat, n: nat, step: int): seq<nat>
    requires step > 0
    decreases n - start
  {
    if start >= n then [] else [start] + WindowStarts(start + step, n, step)
  }

  /** The starts are `start + k * step` for k = 0, 1, ..., and they are all the
   *  ones below `n`: the next would not be. */
  lemma {:induction false} WindowStartsAreMultiples(start: nat, n: nat, step: int)
    requires step > 0
    ensures var ws := WindowStarts(start, n, step);
      && (forall k | 0 <= k < |ws| :: ws[k] == start + k * step && ws[k] < n)
      && start + |ws| * step >= n
    decreases n - start
  {
    if start < n {
      var ws := WindowStarts(start, n, step);
      WindowStartsAreMultiples(start + step, n, step);
      forall k | 0 < k < |ws|
        ensures ws[k] == start + k * step
      {
        assert ws[k] == WindowStarts(start + step, n, step)[k - 1];
        assert start + step + (k - 1) * step == start + k * step;
      }
      assert start + step + (|ws| - 1) * step == start + |ws| * step;
    }
  }

  /** The windows at the given starts, in order. */
  function Windows(text: string, size: int, starts: seq<nat>): seq<Chunk> {
    seq(|starts|, k requires 0 <= k < |starts| => Window(text, size, starts[k]))
  }

  /** The chunks among `cs` that are kept, in order. */
  function Unblank(cs: seq<Chunk>): seq<Chunk> {
    if cs == [] then [] else Kept(cs[0]) + Unblank(cs[1..])
  }

  /** The loop as a filter: the chunks from `start` on are the windows at the
   *  starts from `start` on, blank ones left out. */
  lemma {:induction false} ChunksFromFiltered(text: string, size: int, overlap: int, start: nat)
    requires size > overlap
    ensures ChunksFrom(text, size, overlap, start) == Unblank(Windows(text, size, WindowStarts(start, |text|, size - overlap)))
    decreases |text| - start
  {
    if start < |text| {
      ChunksFromFiltered(text, size, overlap, start + (size - overlap));
      FilteredStep(text, size, overlap, start);
    } else {
      FilteredEnd(text, size, overlap, start);
    }
  }

  /** Past the end of the text there are no windows left. */
  lemma FilteredEnd(text: string, size: int, overlap: int, start: nat)
    requires size > overlap && start >= |text|
    ensures ChunksFrom(text, size, overlap, start) == Unblank(Windows(text, size, WindowStarts(start, |text|, size - overlap)))
  {
    assert WindowStarts(start, |text|, size - overlap) == [];
    assert |Windows(text, size, [])| == 0;
  }

  /** One window further: the filter form carries over from the next start. */
  lemma FilteredStep(text: string, size: int, overlap: int, start: nat)
    requires size > overlap && start < |text|
    requires ChunksFrom(text, size, overlap, start + (size - overlap))
          == Unblank(Windows(text, size, WindowStarts(start + (size - overlap), |text|, size - overlap)))
    ensures ChunksFrom(text, size, overlap, start) == Unblank(Windows(text, size, WindowStarts(start, |text|, size - overlap)))
  {
    var step := size - overlap;
    var w, later := Window(text, size, start), WindowStarts(start + step, |text|, step);
    calc {
      ChunksFrom(text, size, overlap, start);
      { ChunksFromCons(text, size, overlap, start); }
      Kept(w) + ChunksFrom(text, size, overlap, start + step);
      Kept(w) + Unblank(Windows(text, size, later));
      { UnblankCons(w, Windows(text, size, later)); }
      Unblank([w] + Windows(text, size, later));
      { WindowsCons(text, size, start, later); }
      Unblank(Windows(text, size, [start] + later));
      { WindowStartsCons(start, |text|, step); }
      Unblank(Windows(text, size, WindowStarts(start, |text|, step)));
    }
  }

  lemma WindowsCons(text: string, size: int, s: nat, starts: seq<nat>)
    ensures Windows(text, size, [s] + starts) == [Window(text, size, s)] + Windows(text, size, starts)
  {
    var a, b := Windows(text, size, [s] + starts), [Window(text, size, s)] + Windows(text, size, starts);
    assert |a| == |b|;
    forall k | 0 <= k < |a| ensures a[k] == b[k] {
      if k > 0 {
        assert ([s] + starts)[k] == starts[k - 1];
      }
    }
  }

  lemma UnblankCons(w: Chunk, cs: seq<Chunk>)
    ensures Unblank([w] + cs) == Kept(w) + Unblank(cs)
  {
    assert ([w] + cs)[0] == w && ([w] + cs)[1..] == cs;
  }

  /** Filtering keeps exactly the chunks that are not blank. */
  lemma {:induction false} UnblankMembers(cs: seq<Chunk>, c: Chunk)
    ensures c in Unblank(cs) <==> c in cs && !IsBlank(c.text)
  {
    if cs != [] {
      UnblankMembers(cs[1..], c);
      InAppend(c, Kept(cs[0]), Unblank(cs[1..]));
      assert cs == [cs[0]] + cs[1..];
      InAppend(c, [cs[0]], cs[1..]);
    }
  }

  /** A chunk is among the windows at some starts exactly when it is the
   *  window at its own start and that start is listed. */
  lemma WindowsMembers(text: string, size: int, starts: seq<nat>, c: Chunk)
    ensures c in Windows(text, size, starts) <==> c.start in starts && c == Window(text, size, c.start)
  {
    var ws := Windows(text, size, starts);
    if c in ws {
      var k :| 0 <= k < |ws| && ws[k] == c;
      assert c.start == starts[k];
    }
    if c.start in starts && c == Window(text, size, c.start) {
      var k :| 0 <= k < |starts| && starts[k] == c.start;
      assert ws[k] == c;
    }
  }

  /** `ChunksFrom` unfolded once. */
  lemma ChunksFromCons(text: string, size: int, overlap: int, start: nat)
    requires size > overlap && start < |text|
    ensures ChunksFrom(text, size, overlap, start) == Kept(Window(text, size, start)) + ChunksFrom(text, size, overlap, start + (size - overlap))
  {
  }

  /** `WindowStarts` unfolded once. */
  lemma WindowStartsCons(start: nat, n: nat, step: int)
    requires step > 0 && start < n
    ensures WindowStarts(start, n, step) == [start] + WindowStarts(start + step, n, step)
  {
  }

  lemma InAppend<T>(x: T, a: seq<T>, b: seq<T>)
    ensures x in a + b <==> x in a || x in b
  {
  }

  lemma {:induction false} WindowStartsAbove(start: nat, n: nat, step: int)
    requires step > 0
    ensures forall x | x in WindowStarts(start, n, step) :: start <= x
    decreases n - start
  {
    if start < n {
      WindowStartsAbove(start + step, n, step);
    }
  }

  /** Membership in `chunk_text`'s result: a chunk is there exactly when it
   *  starts at one of the window starts 0, s, 2s, ... below the text's length
   *  (s the step), holds that window's text, records its end as start plus
   *  the chunk size, and is not blank. */
  lemma ChunkMembers(text: string, size: int, overlap: int, c: Chunk)
    requires size > overlap
    ensures c in Chunks(text, size, overlap) <==>
      && c.start in WindowStarts(0, |text|, size - overlap)
      && c.text == Slice(text, c.start, c.start + size)
      && c.end == c.start + size
      && !IsBlank(c.text)
  {
    if |text| > 0 {
      var ws := Windows(text, size, WindowStarts(0, |text|, size - overlap));
      ChunksFromFiltered(text, size, overlap, 0);
      UnblankMembers(ws, c);
      WindowsMembers(text, size, WindowStarts(0, |text|, size - overlap), c);
    }
  }

  predicate IncreasingStarts(cs: seq<Chunk>) {
    forall i, j | 0 <= i < j < |cs| :: cs[i].start < cs[j].start
  }

  /** Chunks come in increasing order of their start. */
  lemma {:induction false} ChunksFromIncreasing(text: string, size: int, overlap: int, start0: nat)
    requires size > overlap
    ensures IncreasingStarts(ChunksFrom(text, size, overlap, start0))
    ensures forall c | c in ChunksFrom(text, size, overlap, start0) :: start0 <= c.start
    decreases |text| - start0
  {
    if start0 < |text| {
      var next := start0 + (size - overlap);
      ChunksFromIncreasing(text, size, overlap, next);
      var rest := ChunksFrom(text, size, overlap, next);
      var w := Window(text, size, start0);
      var cs := ChunksFrom(text, size, overlap, start0);
      assert forall c | c in rest :: next <= c.start;
      if !IsBlank(w.text) {
        assert cs == [w] + rest;
        forall i, j | 0 <= i < j < |cs|
          ensures cs[i].start < cs[j].start
        {
          assert cs[j] == rest[j - 1] && rest[j - 1] in rest;
          if i > 0 {
            assert cs[i] == rest[i - 1];
            assert rest[i - 1].start < rest[j - 1].start;
          } else {
            assert cs[i].start == start0 < next;
          }
        }
      } else {
        assert cs == rest;
      }
    }
  }

  lemma ChunksIncreasing(text: string, size: int, overlap: int)
    requires |text| == 0 || size > overlap
    ensures IncreasingStarts(Chunks(text, size, overlap))
  {
    if |text| > 0 {
      ChunksFromIncreasing(text, size, overlap, 0);
    }
  }

  /** Every position at or after `start` and below `n` lies in the stretch of
   *  one step that begins at some window start. */
  lemma {:induction false} StartBelow(start: nat, n: nat, step: int, p: nat)
    requires step > 0 && start <= p < n
    ensures exists s | s in WindowStarts(start, n, step) :: s <= p < s + step
    decreases n - start
  {
    if p >= start + step {
      StartBelow(start + step, n, step, p);
      var s :| s in WindowStarts(start + step, n, step) && s <= p < s + step;
      assert s in WindowStarts(start, n, step);
    } else {
      assert start in WindowStarts(start, n, step);
    }
  }

  /** A position inside a window's stretch is in that window's text, at its
   *  offset from the start. */
  lemma WindowHolds(text: string, size: int, s: nat, p: nat)
    requires s <= p < s + size && p < |text|
    ensures p - s < |Window(text, size, s).text| && Window(text, size, s).text[p - s] == text[p]
  {
    SliceIsClamped(text, s, s + size);
  }

  /** A text with a character other than whitespace is not blank. */
  lemma NotBlank(t: string, k: nat)
    requires k < |t| && !IsSpace(t[k])
    ensures !IsBlank(t)
  {
  }

  /** With a positive size and an overlap that is not negative, no character
   *  of the text other than whitespace is lost: each lies in some chunk, at
   *  its offset from that chunk's start. */
  lemma NothingLost(text: string, size: int, overlap: int, p: nat)
    requires 0 <= overlap < size && p < |text| && !IsSpace(text[p])
    ensures exists c | c in Chunks(text, size, overlap) :: c.start <= p < c.start + |c.text| && c.text[p - c.start] == text[p]
  {
    StartBelow(0, |text|, size - overlap, p);
    var s :| s in WindowStarts(0, |text|, size - overlap) && s <= p < s + (size - overlap);
    WindowKept(text, size, overlap, s, p);
    HeldBy(Chunks(text, size, overlap), Window(text, size, s), text, p);
  }

  /** The window whose stretch holds a character other than whitespace is
   *  one of the chunks, and holds that character. */
  lemma WindowKept(text: string, size: int, overlap: int, s: nat, p: nat)
    requires 0 <= overlap < size && p < |text| && !IsSpace(text[p])
    requires s in WindowStarts(0, |text|, size - overlap) && s <= p < s + (size - overlap)
    ensures Window(text, size, s) in Chunks(text, size, overlap)
    ensures s <= p < s + |Window(text, size, s).text| && Window(text, size, s).text[p - s] == text[p]
  {
    var w := Window(text, size, s);
    WindowHolds(text, size, s, p);
    NotBlank(w.text, p - s);
    ChunkMembers(text, size, overlap, w);
  }

  lemma HeldBy(cs: seq<Chunk>, w: Chunk, text: string, p: nat)
    requires w in cs && w.start <= p < w.start + |w.text| && p < |text| && w.text[p - w.start] == text[p]
    ensures exists c | c in cs :: c.start <= p < c.start + |c.text| && c.text[p - c.start] == text[p]
  {
  }

  class DocumentLoader {
    const chunkSize: int
    const chunkOverlap: int

    /** `__init__` (lines 7-9); `Default()` gives the 500/50 configuration. */
    constructor (chunkSize: int, chunkOverlap: int)
      ensures this.chunkSize == chunkSize && this.chunkOverlap == chunkOverlap
    {
      this.chunkSize := chunkSize;
      this.chunkOverlap := chunkOverlap;
    }

    /** `chunk_text(text)` (lines 17-35). */
    method ChunkText(text: string) returns (chunks: seq<Chunk>)
      requires |text| == 0 || chunkSize > chunkOverlap
      ensures chunks == Chunks(text, chunkSize, chunkOverlap)
    {
      var size, overlap := chunkSize, chunkOverlap;
      chunks := [];
      var start: nat := 0;
      ghost var target := Chunks(text, size, overlap);
      while start < |text|
        invariant |text| == 0 ==> chunks == []
        invariant |text| > 0 ==> Gathered(text, size, overlap, start, chunks, target)
        decreases |text| - start
      {
        var end := start + size;
        var chunk := Slice(text, start, end);
        var next := start + (size - overlap);
        if !IsBlank(chunk) {
          ghost var before := chunks;
          chunks := chunks + [Chunk(chunk, start, end)];
          KeepStep(text, size, overlap, start, next, chunk, before, chunks, target);
        } else {
          SkipStep(text, size, overlap, start, next, chunks, target);
        }
        start := next;
      }
      if |text| > 0 {
        AllGathered(text, size, overlap, start, chunks, target);
      }
    }

    /** `load_all_documents(folder_path)` (lines 37-60). */
    method LoadAllDocuments(files: seq<string>, read: string -> string) returns (documents: seq<Document>)
      requires chunkSize > chunkOverlap || TextFilesEmpty(files, read)
      ensures documents == AllDocuments(files, read, chunkSize, chunkOverlap)
    {
      var size, overlap := chunkSize, chunkOverlap;
      documents := [];
      for k := 0 to |files|
        invariant documents == AllDocuments(files[..k], read, size, overlap)
      {
        var filename := files[k];
        NextFile(files, k, read, size, overlap);
        if EndsWith(filename, ".txt") {
          var chunks := ChunkText(read(filename));
          ghost var before := documents;
          for i := 0 to |chunks|
            invariant documents == before + FileDocuments(filename, chunks)[..i]
          {
            NextDocument(before, filename, chunks, i);
            documents := documents + [Document(filename + "_" + NatToString(i), chunks[i].text, filename, i)];
          }
          assert FileDocuments(filename, chunks)[..|chunks|] == FileDocuments(filename, chunks);
        }
      }
      assert files[..|files|] == files;
    }
  }

  /** Every listed `.txt` file reads as empty text (the other files are
   *  never read). */
  predicate TextFilesEmpty(files: seq<string>, read: string -> string) {
    forall f | f in files && EndsWith(f, ".txt") :: |read(f)| == 0
  }

  /** The documents of one more file of the listing. */
  lemma NextFile(files: seq<string>, k: nat, read: string -> string, size: int, overlap: int)
    requires k < |files| && (size > overlap || TextFilesEmpty(files, read))
    ensures size > overlap || TextFilesEmpty(files[..k + 1], read)
    ensures size > overlap || TextFilesEmpty(files[..k], read)
    ensures size > overlap || !EndsWith(files[k], ".txt") || |read(files[k])| == 0
    ensures EndsWith(files[k], ".txt") ==>
      (AllDocuments(files[..k + 1], read, size, overlap)
       == AllDocuments(files[..k], read, size, overlap) + FileDocuments(files[k], Chunks(read(files[k]), size, overlap)))
    ensures !EndsWith(files[k], ".txt") ==> AllDocuments(files[..k + 1], read, size, overlap) == AllDocuments(files[..k], read, size, overlap)
  {
    assert files[..k + 1][..k] == files[..k] && files[k] in files;
    assert forall f | f in files[..k + 1] :: f in files;
    assert AllDocuments(files[..k], read, size, overlap) + [] == AllDocuments(files[..k], read, size, overlap);
  }

  /** One more document of a file. */
  lemma NextDocument(before: seq<Document>, filename: string, chunks: seq<Chunk>, i: nat)
    requires i < |chunks|
    ensures (before + FileDocuments(filename, chunks)[..i]) + [Document(filename + "_" + NatToString(i), chunks[i].text, filename, i)]
         == before + FileDocuments(filename, chunks)[..i + 1]
  {
    var ds := FileDocuments(filename, chunks);
    assert ds[..i + 1] == ds[..i] + [ds[i]];
  }

  /** The documents for one file's chunks: the i-th is `"<file>_<i>"`, with
   *  that chunk's text and index. */
  function FileDocuments(filename: string, chunks: seq<Chunk>): (ds: seq<Document>)
    ensures |ds| == |chunks|
    ensures forall i | 0 <= i < |chunks| ::
      && ds[i].id == filename + "_" + NatToString(i)
      && ds[i].text == chunks[i].text
      && ds[i].source == filename
      && ds[i].chunkIndex == i
  {
    seq(|chunks|, i requires 0 <= i < |chunks| => Document(filename + "_" + NatToString(i), chunks[i].text, filename, i))
  }

  /** The documents of the `.txt` files among `files`, file after file. */
  function AllDocuments(files: seq<string>, read: string -> string, size: int, overlap: int): seq<Document>
    requires size > overlap || TextFilesEmpty(files, read)
  {
    if files == [] then []
    else
      var last := files[|files| - 1];
      assert forall f | f in files[..|files| - 1] :: f in files;
      AllDocuments(files[..|files| - 1], read, size, overlap)
        + if EndsWith(last, ".txt") then FileDocuments(last, Chunks(read(last), size, overlap)) else []
  }

  /** Only `.txt` files contribute, and each document carries the chunk it was
   *  made from: its source is one of the listed `.txt` files, and its text is
   *  the chunk at its index in that file's chunks. */
  lemma {:induction false} DocumentsFromTextFiles(files: seq<string>, read: string -> string, size: int, overlap: int)
    requires size > overlap || TextFilesEmpty(files, read)
    ensures forall d | d in AllDocuments(files, read, size, overlap) ::
      && d.source in files && EndsWith(d.source, ".txt")
      && d.chunkIndex < |Chunks(read(d.source), size, overlap)|
      && d.text == Chunks(read(d.source), size, overlap)[d.chunkIndex].text
      && d.id == d.source + "_" + NatToString(d.chunkIndex)
  {
    if files != [] {
      assert forall f | f in files[..|files| - 1] :: f in files;
      DocumentsFromTextFiles(files[..|files| - 1], read, size, overlap);
    }
  }

  /** A file's documents are numbered 0, 1, ... without gaps, one per kept
   *  chunk; other files leave no documents of their own. */
  lemma TextFileDocuments(filename: string, read: string -> string, size: int, overlap: int)
    requires size > overlap || |read(filename)| == 0
    ensures var ds := AllDocuments([filename], read, size, overlap);
      && (!EndsWith(filename, ".txt") ==> ds == [])
      && (EndsWith(filename, ".txt") ==>
            && |ds| == |Chunks(read(filename), size, overlap)|
            && forall i | 0 <= i < |ds| :: ds[i].chunkIndex == i && ds[i].source == filename)
  {
    assert [filename][..0] == [];
  }
}
