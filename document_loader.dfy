/**
 * Document loading: the folder walk and its filter, per-file dispatch on the
 * extension, the fixed-window overlapping chunker and chunk identity.
 * Filesystem access and PDF/DOCX extraction are inputs (`WalkEntry`,
 * `Extractors`).
 */
module Documents {
  import opened Wrappers
  import opened Text
  import opened Batching
  import Config

  datatype Metadata = Metadata(source: string, chunkIndex: nat, fileType: string)

  /** One chunk of a source document. */
  datatype Document = Document(content: string, metadata: Metadata) {
    /** The store's primary key for this chunk. */
    function Id(): (id: string)
      ensures |id| > |metadata.source| && id[..|metadata.source|] == metadata.source
      ensures id[|metadata.source|] == '_' && id[|metadata.source| + 1..] == NatToString(metadata.chunkIndex)
    {
      ChunkId(metadata.source, metadata.chunkIndex)
    }
  }

  /** source + "_" + str(chunk_index). */
  function ChunkId(source: string, chunkIndex: nat): string {
    source + "_" + NatToString(chunkIndex)
  }

  /**
   * The key determines its (source, chunk_index) pair: the digits of the index
   * hold no '_', so the last '_' of the key separates the two parts.
   */
  lemma ChunkIdInjective(s1: string, i1: nat, s2: string, i2: nat)
    requires ChunkId(s1, i1) == ChunkId(s2, i2)
    ensures s1 == s2 && i1 == i2
  {
    var d1, d2 := NatToString(i1), NatToString(i2);
    var id := ChunkId(s1, i1);
    LastUnderscore(s1, d1);
    LastUnderscore(s2, d2);
    assert id[..|s1|] == s1 && id[..|s2|] == s2;
    assert id[|s1| + 1..] == d1 && id[|s2| + 1..] == d2;
    NatToStringInjective(i1, i2);
  }

  /** In source + "_" + digits, the last '_' is the one just after the source. */
  lemma {:induction false} LastUnderscore(s: string, d: string)
    requires forall i :: 0 <= i < |d| ==> IsDigit(d[i])
    ensures RFind(s + "_" + d, '_') == |s|
    decreases |d|
  {
    var id := s + "_" + d;
    if d != [] {
      assert id[..|id| - 1] == s + "_" + d[..|d| - 1];
      LastUnderscore(s, d[..|d| - 1]);
    }
  }

  /** A file found by the walk: its directory relative to the loader's folder, and its name. */
  datatype FilePath = FilePath(relDir: seq<string>, name: string)

  /** pathlib's `suffix`: from the last '.' of the name, unless that dot is first or last. */
  function Suffix(name: string): (s: string)
    ensures s == "" || (|s| >= 2 && s[0] == '.' && forall i :: 1 <= i < |s| ==> s[i] != '.')
    ensures s != "" ==> |s| < |name| && name[|name| - |s|..] == s
    ensures forall i :: 0 < i < |name| - 1 && name[i] == '.' && (forall j :: i < j < |name| ==> name[j] != '.') ==> s == name[i..]
  {
    var i := RFind(name, '.');
    if 0 < i < |name| - 1 then name[i..] else ""
  }

  /** `file_path.suffix.lower()`. */
  function FileType(f: FilePath): string {
    ToLower(Suffix(f.name))
  }

  /** `str(file_path.relative_to(folder))` on a POSIX system. */
  function RelativePath(f: FilePath): string {
    Join(f.relDir + [f.name], "/")
  }


  // ---------------------------------------------------------------- chunking

  /** Where window k starts: the loop adds `step` to `start` once per window. */
  function Start(k: nat, step: nat): nat {
    if k == 0 then 0 else Start(k - 1, step) + step
  }

  /** Window k starts at k * step. */
  lemma {:induction false} StartIsProduct(k: nat, step: nat)
    ensures Start(k, step) == k * step
  {
    if k > 0 {
      StartIsProduct(k - 1, step);
      assert (k - 1) * step + step == k * step;
    }
  }

  lemma {:induction false} StartMonotone(a: nat, b: nat, step: nat)
    requires a <= b
    ensures Start(a, step) <= Start(b, step)
    decreases b
  {
    if a < b {
      StartMonotone(a, b - 1, step);
    }
  }

  /** How many times the chunking loop runs for a text of length `len`: ceil(len / step). */
  function WindowCount(len: nat, size: nat, overlap: nat): nat
    requires overlap < size
  {
    (len + (size - overlap) - 1) / (size - overlap)
  }

  /** n windows are visited exactly when window n - 1 starts inside the text and window n does not. */
  lemma WindowCountIff(len: nat, size: nat, overlap: nat, n: nat)
    requires overlap < size
    ensures WindowCount(len, size, overlap) == n <==>
      Start(n, size - overlap) >= len && (n == 0 || Start(n - 1, size - overlap) < len)
  {
    WindowCountBracket(len, size, overlap);
    if Start(n, size - overlap) >= len && (n == 0 || Start(n - 1, size - overlap) < len) {
      WindowCountUnique(len, size, overlap, n);
    }
  }

  /** The loop's exit condition holds after WindowCount windows. */
  lemma WindowCountBracket(len: nat, size: nat, overlap: nat)
    requires overlap < size
    ensures var n := WindowCount(len, size, overlap);
      Start(n, size - overlap) >= len && (n == 0 || Start(n - 1, size - overlap) < len)
  {
    var step := size - overlap;
    var x := len + step - 1;
    var q := x / step;
    assert x == q * step + x % step;
    StartIsProduct(q, step);
    if q > 0 {
      StartIsProduct(q - 1, step);
      assert (q - 1) * step == q * step - step;
    }
  }

  /** No other count satisfies the exit condition. */
  lemma WindowCountUnique(len: nat, size: nat, overlap: nat, n: nat)
    requires overlap < size
    requires Start(n, size - overlap) >= len && (n == 0 || Start(n - 1, size - overlap) < len)
    ensures WindowCount(len, size, overlap) == n
  {
    var step := size - overlap;
    StartIsProduct(n, step);
    if n > 0 {
      StartIsProduct(n - 1, step);
      assert (n - 1) * step == n * step - step;
    }
    DivIsQuotient(len + step - 1, step, n);
  }

  /** Window k: text[start : start + size] with start = k * step, clipped to the end of the text. */
  function Window(text: string, k: nat, size: nat, overlap: nat): (w: string)
    requires overlap < size && Start(k, size - overlap) < |text|
    ensures 0 < |w| <= size
  {
    var start := Start(k, size - overlap);
    text[start..Min(start + size, |text|)]
  }

  /** What window k contributes: nothing when it is blank, otherwise one chunk with index k. */
  function WindowChunk(text: string, source: string, fileType: string, k: nat, size: nat, overlap: nat): seq<Document>
    requires overlap < size && Start(k, size - overlap) < |text|
  {
    var w := Window(text, k, size, overlap);
    if IsBlank(w) then [] else [Document(w, Metadata(source, k, fileType))]
  }

  /** The chunks of windows 0 .. n-1, in order. */
  function ChunksBelow(text: string, source: string, fileType: string, n: nat, size: nat, overlap: nat): seq<Document>
    requires overlap < size
    requires n == 0 || Start(n - 1, size - overlap) < |text|
  {
    if n == 0 then []
    else ChunksBelow(text, source, fileType, n - 1, size, overlap) + WindowChunk(text, source, fileType, n - 1, size, overlap)
  }

  /** The chunks of a whole text, tagged with the given source and file type. */
  function TaggedChunks(text: string, source: string, fileType: string, size: nat, overlap: nat): seq<Document>
    requires overlap < size
  {
    WindowCountBracket(|text|, size, overlap);
    ChunksBelow(text, source, fileType, WindowCount(|text|, size, overlap), size, overlap)
  }

  /** The chunks of a file's text: tagged with its relative path and its lower-cased suffix. */
  function Chunks(text: string, file: FilePath, size: nat, overlap: nat): seq<Document>
    requires overlap < size
  {
    TaggedChunks(text, RelativePath(file), FileType(file), size, overlap)
  }

  /**
   * One iteration of the chunking loop: the piece it slices at `start` is
   * window k, its chunk (if any) extends the chunks of the earlier windows,
   * and the next window starts one step later.
   */
  lemma ChunkLoopStep(text: string, source: string, fileType: string, size: nat, overlap: nat, k: nat, start: nat)
    requires overlap < size && start == Start(k, size - overlap) && start < |text|
    ensures Start(k + 1, size - overlap) == start + size - overlap
    ensures var piece := text[start..Min(start + size, |text|)];
      IsBlank(piece) ==> ChunksBelow(text, source, fileType, k + 1, size, overlap) == ChunksBelow(text, source, fileType, k, size, overlap)
    ensures var piece := text[start..Min(start + size, |text|)];
      !IsBlank(piece) ==>
        ChunksBelow(text, source, fileType, k + 1, size, overlap) ==
        ChunksBelow(text, source, fileType, k, size, overlap) + [Document(piece, Metadata(source, k, fileType))]
  {
    assert text[start..Min(start + size, |text|)] == Window(text, k, size, overlap);
  }

  /** DocumentLoader._chunk_text, with the window size and overlap as parameters. */
  method ChunkText(text: string, file: FilePath, size: nat, overlap: nat) returns (chunks: seq<Document>)
    requires overlap < size
    ensures chunks == Chunks(text, file, size, overlap)
  {
    var source := RelativePath(file);
    var fileType := FileType(file);
    chunks := SlideWindows(text, source, fileType, size, overlap);
  }

  /** The while loop of _chunk_text: slides the window along the text and keeps the non-blank pieces. */
  method SlideWindows(text: string, source: string, fileType: string, size: nat, overlap: nat) returns (chunks: seq<Document>)
    requires overlap < size
    ensures chunks == TaggedChunks(text, source, fileType, size, overlap)
  {
    chunks := [];
    var start: nat := 0;
    var chunkIndex: nat := 0;
    while start < |text|
      invariant start == Start(chunkIndex, size - overlap)
      invariant chunkIndex == 0 || Start(chunkIndex - 1, size - overlap) < |text|
      invariant chunks == ChunksBelow(text, source, fileType, chunkIndex, size, overlap)
      decreases |text| - start
    {
      var end := start + size;
      var piece := text[start..Min(end, |text|)];
      ChunkLoopStep(text, source, fileType, size, overlap, chunkIndex, start);
      if !IsBlank(piece) {
        chunks := chunks + [Document(piece, Metadata(source, chunkIndex, fileType))];
      }
      start := end - overlap;
      chunkIndex := chunkIndex + 1;
    }
    ChunksAtExit(text, source, fileType, size, overlap, chunkIndex);
  }

  /** When the loop stops after n windows, it has produced the chunks of the whole text. */
  lemma ChunksAtExit(text: string, source: string, fileType: string, size: nat, overlap: nat, n: nat)
    requires overlap < size
    requires Start(n, size - overlap) >= |text| && (n == 0 || Start(n - 1, size - overlap) < |text|)
    ensures TaggedChunks(text, source, fileType, size, overlap) == ChunksBelow(text, source, fileType, n, size, overlap)
  {
    WindowCountIff(|text|, size, overlap, n);
  }

  /** With the configured sizes, a 2500-character text has four windows starting at 0, 800, 1600 and 2400. */
  lemma ExampleWindows(text: string)
    requires |text| == 2500
    ensures WindowCount(|text|, Config.CHUNK_SIZE, Config.CHUNK_OVERLAP) == 4
    ensures Window(text, 0, Config.CHUNK_SIZE, Config.CHUNK_OVERLAP) == text[0..1000]
    ensures Window(text, 1, Config.CHUNK_SIZE, Config.CHUNK_OVERLAP) == text[800..1800]
    ensures Window(text, 2, Config.CHUNK_SIZE, Config.CHUNK_OVERLAP) == text[1600..2500]
    ensures Window(text, 3, Config.CHUNK_SIZE, Config.CHUNK_OVERLAP) == text[2400..2500]
  {
    assert Start(3, 800) == 2400;
    WindowCountIff(2500, 1000, 200, 4);
  }

  /** c is the chunk the loop emits for the window named by its chunk index, and that window is not blank. */
  predicate IsWindowChunk(c: Document, text: string, source: string, fileType: string, size: nat, overlap: nat)
    requires overlap < size
  {
    var k := c.metadata.chunkIndex;
    && Start(k, size - overlap) < |text|
    && !IsBlank(Window(text, k, size, overlap))
    && c == Document(Window(text, k, size, overlap), Metadata(source, k, fileType))
  }

  /** Every chunk of cs is a window chunk with an index below n. */
  predicate AllWindowChunks(cs: seq<Document>, n: nat, text: string, source: string, fileType: string, size: nat, overlap: nat)
    requires overlap < size
  {
    forall j :: 0 <= j < |cs| ==> cs[j].metadata.chunkIndex < n && IsWindowChunk(cs[j], text, source, fileType, size, overlap)
  }

  lemma {:induction false} ChunksBelowWellFormed(text: string, source: string, fileType: string, n: nat, size: nat, overlap: nat)
    requires overlap < size
    requires n == 0 || Start(n - 1, size - overlap) < |text|
    ensures AllWindowChunks(ChunksBelow(text, source, fileType, n, size, overlap), n, text, source, fileType, size, overlap)
  {
    if n > 0 {
      var prev := ChunksBelow(text, source, fileType, n - 1, size, overlap);
      var last := WindowChunk(text, source, fileType, n - 1, size, overlap);
      var cs := ChunksBelow(text, source, fileType, n, size, overlap);
      assert cs == prev + last;
      ChunksBelowWellFormed(text, source, fileType, n - 1, size, overlap);
      forall j | 0 <= j < |cs|
        ensures cs[j].metadata.chunkIndex < n && IsWindowChunk(cs[j], text, source, fileType, size, overlap)
      {
        if j < |prev| {
          assert cs[j] == prev[j];
        } else {
          assert cs[j] == last[0];
        }
      }
    }
  }

  lemma ChunksWellFormed(text: string, source: string, fileType: string, size: nat, overlap: nat)
    requires overlap < size
    ensures AllWindowChunks(TaggedChunks(text, source, fileType, size, overlap), WindowCount(|text|, size, overlap), text, source, fileType, size, overlap)
  {
    WindowCountBracket(|text|, size, overlap);
    ChunksBelowWellFormed(text, source, fileType, WindowCount(|text|, size, overlap), size, overlap);
  }

  /**
   * Chunk j is the non-blank window named by its chunk index (so at most
   * `size` characters long), tagged with the source and file type it was
   * given (for a file: its relative path and lower-cased suffix).
   */
  lemma ChunkShape(text: string, source: string, fileType: string, size: nat, overlap: nat, j: nat)
    requires overlap < size && j < |TaggedChunks(text, source, fileType, size, overlap)|
    ensures var c := TaggedChunks(text, source, fileType, size, overlap)[j];
      && c.metadata.chunkIndex < WindowCount(|text|, size, overlap)
      && Start(c.metadata.chunkIndex, size - overlap) < |text|
      && c.content == Window(text, c.metadata.chunkIndex, size, overlap)
      && 0 < |c.content| <= size
      && !IsBlank(c.content)
      && c.metadata.source == source
      && c.metadata.fileType == fileType
  {
    ChunksWellFormed(text, source, fileType, size, overlap);
  }

  /** Chunk indices strictly increase along cs. */
  predicate IndicesIncreasing(cs: seq<Document>) {
    forall i, j :: 0 <= i < j < |cs| ==> cs[i].metadata.chunkIndex < cs[j].metadata.chunkIndex
  }

  lemma {:induction false} ChunksBelowIncreasing(text: string, source: string, fileType: string, n: nat, size: nat, overlap: nat)
    requires overlap < size
    requires n == 0 || Start(n - 1, size - overlap) < |text|
    ensures IndicesIncreasing(ChunksBelow(text, source, fileType, n, size, overlap))
  {
    if n > 0 {
      var prev := ChunksBelow(text, source, fileType, n - 1, size, overlap);
      var cs := ChunksBelow(text, source, fileType, n, size, overlap);
      ChunksBelowIncreasing(text, source, fileType, n - 1, size, overlap);
      ChunksBelowWellFormed(text, source, fileType, n - 1, size, overlap);
      assert forall j :: |prev| <= j < |cs| ==> cs[j].metadata.chunkIndex == n - 1;
      assert forall j :: 0 <= j < |prev| ==> cs[j] == prev[j];
    }
  }

  /** The chunk index counts windows, not emitted chunks: it strictly increases along the result, with gaps where windows were blank. */
  lemma ChunksIncreasing(text: string, source: string, fileType: string, size: nat, overlap: nat)
    requires overlap < size
    ensures IndicesIncreasing(TaggedChunks(text, source, fileType, size, overlap))
  {
    WindowCountBracket(|text|, size, overlap);
    ChunksBelowIncreasing(text, source, fileType, WindowCount(|text|, size, overlap), size, overlap);
  }

  /** Whether some chunk of cs carries index k. */
  predicate HasIndex(cs: seq<Document>, k: nat) {
    exists j :: 0 <= j < |cs| && cs[j].metadata.chunkIndex == k
  }

  lemma {:induction false} ChunksBelowHaveWindow(text: string, source: string, fileType: string, n: nat, size: nat, overlap: nat, k: nat)
    requires overlap < size
    requires n == 0 || Start(n - 1, size - overlap) < |text|
    requires k < n && Start(k, size - overlap) < |text|
    requires !IsBlank(Window(text, k, size, overlap))
    ensures HasIndex(ChunksBelow(text, source, fileType, n, size, overlap), k)
  {
    if k == n - 1 {
      LastWindowHasIndex(text, source, fileType, n, size, overlap);
    } else {
      ChunksBelowHaveWindow(text, source, fileType, n - 1, size, overlap, k);
      HasIndexGrows(text, source, fileType, n, size, overlap, k);
    }
  }

  /** The last of n windows, when not blank, yields a chunk with index n-1. */
  lemma LastWindowHasIndex(text: string, source: string, fileType: string, n: nat, size: nat, overlap: nat)
    requires overlap < size && n > 0 && Start(n - 1, size - overlap) < |text|
    requires !IsBlank(Window(text, n - 1, size, overlap))
    ensures HasIndex(ChunksBelow(text, source, fileType, n, size, overlap), n - 1)
  {
    var prev := ChunksBelow(text, source, fileType, n - 1, size, overlap);
    var last := WindowChunk(text, source, fileType, n - 1, size, overlap);
    assert ChunksBelow(text, source, fileType, n, size, overlap) == prev + last;
    WindowChunkHasIndex(text, source, fileType, size, overlap, n - 1);
    HasIndexAppend(prev, last, n - 1);
  }

  /** Visiting one more window keeps every chunk index found so far. */
  lemma HasIndexGrows(text: string, source: string, fileType: string, n: nat, size: nat, overlap: nat, k: nat)
    requires overlap < size && n > 0 && Start(n - 1, size - overlap) < |text|
    requires HasIndex(ChunksBelow(text, source, fileType, n - 1, size, overlap), k)
    ensures HasIndex(ChunksBelow(text, source, fileType, n, size, overlap), k)
  {
    var prev := ChunksBelow(text, source, fileType, n - 1, size, overlap);
    var last := WindowChunk(text, source, fileType, n - 1, size, overlap);
    assert ChunksBelow(text, source, fileType, n, size, overlap) == prev + last;
    HasIndexAppend(prev, last, k);
  }

  /** A window that is not blank yields a chunk carrying its own index. */
  lemma WindowChunkHasIndex(text: string, source: string, fileType: string, size: nat, overlap: nat, k: nat)
    requires overlap < size && Start(k, size - overlap) < |text|
    requires !IsBlank(Window(text, k, size, overlap))
    ensures HasIndex(WindowChunk(text, source, fileType, k, size, overlap), k)
  {
    assert WindowChunk(text, source, fileType, k, size, overlap)[0].metadata.chunkIndex == k;
  }

  /** An index carried by either part of a concatenation is carried by the whole. */
  lemma HasIndexAppend(a: seq<Document>, b: seq<Document>, k: nat)
    requires HasIndex(a, k) || HasIndex(b, k)
    ensures HasIndex(a + b, k)
  {
    if HasIndex(a, k) {
      var j :| 0 <= j < |a| && a[j].metadata.chunkIndex == k;
      assert (a + b)[j] == a[j];
    } else {
      var j :| 0 <= j < |b| && b[j].metadata.chunkIndex == k;
      assert (a + b)[|a| + j] == b[j];
    }
  }

  /** Window k yields a chunk exactly when it is not blank. */
  lemma ChunksComplete(text: string, source: string, fileType: string, size: nat, overlap: nat, k: nat)
    requires overlap < size
    requires k < WindowCount(|text|, size, overlap)
    ensures Start(k, size - overlap) < |text|
    ensures HasIndex(TaggedChunks(text, source, fileType, size, overlap), k) <==> !IsBlank(Window(text, k, size, overlap))
  {
    var n := WindowCount(|text|, size, overlap);
    WindowCountBracket(|text|, size, overlap);
    StartMonotone(k, n - 1, size - overlap);
    if HasIndex(TaggedChunks(text, source, fileType, size, overlap), k) {
      ChunkedWindowNotBlank(text, source, fileType, size, overlap, k);
    }
    if !IsBlank(Window(text, k, size, overlap)) {
      ChunksBelowHaveWindow(text, source, fileType, n, size, overlap, k);
    }
  }

  /** The chunk carrying index k was cut from window k, which is therefore not blank. */
  lemma ChunkedWindowNotBlank(text: string, source: string, fileType: string, size: nat, overlap: nat, k: nat)
    requires overlap < size
    requires HasIndex(TaggedChunks(text, source, fileType, size, overlap), k)
    ensures Start(k, size - overlap) < |text| && !IsBlank(Window(text, k, size, overlap))
  {
    var cs := TaggedChunks(text, source, fileType, size, overlap);
    ChunksWellFormed(text, source, fileType, size, overlap);
    var j :| 0 <= j < |cs| && cs[j].metadata.chunkIndex == k;
    assert IsWindowChunk(cs[j], text, source, fileType, size, overlap);
  }

  /**
   * Every position i of the text lies in window i / step, one of the windows
   * the loop visits, because the step never exceeds the window size.
   */
  lemma WindowsCoverText(len: nat, size: nat, overlap: nat, i: nat)
    requires overlap < size && i < len
    ensures var k := i / (size - overlap);
      k < WindowCount(len, size, overlap) && Start(k, size - overlap) <= i < Start(k, size - overlap) + size
  {
    var step := size - overlap;
    var k := i / step;
    assert Start(k, step) <= i < Start(k, step) + step by {
      StartIsProduct(k, step);
      assert i == k * step + i % step;
    }
    assert k < WindowCount(len, size, overlap) by {
      var n := WindowCount(len, size, overlap);
      WindowCountBracket(len, size, overlap);
      if k >= n {
        StartMonotone(n, k, step);
      }
    }
  }

  /** The IDs of cs, in order. */
  function Ids(cs: seq<Document>): seq<string> {
    MapAll((d: Document) => d.Id(), cs)
  }

  /** Two texts of one length whose windows are blank at the same positions. */
  ghost predicate SameLayout(t1: string, t2: string, size: nat, overlap: nat)
    requires overlap < size
  {
    && |t1| == |t2|
    && forall k: nat :: Start(k, size - overlap) < |t1| ==>
         (IsBlank(Window(t1, k, size, overlap)) <==> IsBlank(Window(t2, k, size, overlap)))
  }

  lemma {:induction false} ChunkIdsBelowStable(t1: string, t2: string, source: string, fileType: string, n: nat, size: nat, overlap: nat)
    requires overlap < size && SameLayout(t1, t2, size, overlap)
    requires n == 0 || Start(n - 1, size - overlap) < |t1|
    ensures Ids(ChunksBelow(t1, source, fileType, n, size, overlap)) == Ids(ChunksBelow(t2, source, fileType, n, size, overlap))
  {
    if n > 0 {
      var k := n - 1;
      ChunkIdsBelowStable(t1, t2, source, fileType, k, size, overlap);
      var w1, w2 := WindowChunk(t1, source, fileType, k, size, overlap), WindowChunk(t2, source, fileType, k, size, overlap);
      assert IsBlank(Window(t1, k, size, overlap)) <==> IsBlank(Window(t2, k, size, overlap));
      assert Ids(w1) == Ids(w2) by {
        if w1 != [] {
          assert w1[0].Id() == ChunkId(source, k) == w2[0].Id();
        }
      }
      var f := (d: Document) => d.Id();
      MapAllAppend(f, ChunksBelow(t1, source, fileType, k, size, overlap), w1);
      MapAllAppend(f, ChunksBelow(t2, source, fileType, k, size, overlap), w2);
    }
  }

  /**
   * Chunk IDs depend only on the source and on which windows are blank:
   * re-chunking a file whose text kept its length and its blank windows,
   * in particular an unchanged file, reproduces the same IDs in the same order.
   */
  lemma ChunkIdsStable(t1: string, t2: string, source: string, fileType: string, size: nat, overlap: nat)
    requires overlap < size && SameLayout(t1, t2, size, overlap)
    ensures Ids(TaggedChunks(t1, source, fileType, size, overlap)) == Ids(TaggedChunks(t2, source, fileType, size, overlap))
  {
    WindowCountBracket(|t1|, size, overlap);
    ChunkIdsBelowStable(t1, t2, source, fileType, WindowCount(|t1|, size, overlap), size, overlap);
  }

  /** No two chunks of cs share an ID. */
  predicate IdsDistinct(cs: seq<Document>) {
    forall i, j :: 0 <= i < j < |cs| ==> cs[i].Id() != cs[j].Id()
  }

  /** Chunks of one file have pairwise distinct IDs. */
  lemma ChunkIdsDistinct(text: string, source: string, fileType: string, size: nat, overlap: nat)
    requires overlap < size
    ensures IdsDistinct(TaggedChunks(text, source, fileType, size, overlap))
  {
    var cs := TaggedChunks(text, source, fileType, size, overlap);
    ChunksIncreasing(text, source, fileType, size, overlap);
    forall i, j | 0 <= i < j < |cs| ensures cs[i].Id() != cs[j].Id() {
      if cs[i].Id() == cs[j].Id() {
        ChunkIdInjective(cs[i].metadata.source, cs[i].metadata.chunkIndex, cs[j].metadata.source, cs[j].metadata.chunkIndex);
      }
    }
  }

  // ---------------------------------------------------------------- loading

  /** One step of os.walk: a directory, relative to the loader's folder, and the names of the files in it. */
  datatype WalkEntry = WalkEntry(relDir: seq<string>, files: seq<string>)

  /**
   * What the loader observes of its folder: the components of its resolved
   * path, the walk in os.walk order, and the three readers. `readText` fails
   * when reading the file raises (a file no encoding decodes already reads as
   * ""); the PDF and DOCX readers catch their own errors and return "".
   */
  datatype Folder = Folder(
    parts: seq<string>,
    walk: seq<WalkEntry>,
    readText: FilePath -> Result<string>,
    pdfText: FilePath -> string,
    docxText: FilePath -> string)

  /** The walk skips a directory when some component of its absolute path is the index folder. */
  predicate InIndexFolder(parts: seq<string>, relDir: seq<string>) {
    Config.INDEX_FOLDER in parts + relDir
  }

  /** The suffix filter of _get_files. */
  predicate IsSupported(name: string) {
    ToLower(Suffix(name)) in Config.SupportedExtensions()
  }

  /** `lower()` folds the Kelvin sign to 'k', so a name ending in ".\u212at" passes as Kotlin source. */
  lemma KelvinSuffixSupported()
    ensures IsSupported("Main.\U{212A}t")
  {
    var name := "Main.\U{212A}t";
    assert name[4] == '.' && name[5] != '.' && name[6] != '.';
    assert RFind(name, '.') == 4;
    assert Suffix(name) == ".\U{212A}t";
    assert ToLower(".\U{212A}t") == ".kt";
    Config.CodeExtensionsNormalized();
  }

  /** The files of one directory whose names pass `keep`, in listing order. */
  function Kept(relDir: seq<string>, names: seq<string>, keep: string -> bool): (r: seq<FilePath>)
    ensures forall i :: 0 <= i < |r| ==> r[i].relDir == relDir && r[i].name in names && keep(r[i].name)
  {
    if names == [] then []
    else (if keep(names[0]) then [FilePath(relDir, names[0])] else []) + Kept(relDir, names[1..], keep)
  }

  /** The supported files of one directory, in listing order. */
  function SupportedFiles(relDir: seq<string>, names: seq<string>): seq<FilePath> {
    Kept(relDir, names, IsSupported)
  }

  /** DocumentLoader._get_files: the files the walk yields, in walk order. */
  function GetFiles(parts: seq<string>, walk: seq<WalkEntry>): (r: seq<FilePath>)
    ensures forall i :: 0 <= i < |r| ==> IsSupported(r[i].name) && !InIndexFolder(parts, r[i].relDir)
  {
    if walk == [] then []
    else
      var here := if InIndexFolder(parts, walk[0].relDir) then [] else SupportedFiles(walk[0].relDir, walk[0].files);
      here + GetFiles(parts, walk[1..])
  }

  lemma {:induction false} KeptExactly(relDir: seq<string>, names: seq<string>, keep: string -> bool, f: FilePath)
    ensures f in Kept(relDir, names, keep) <==> f.relDir == relDir && f.name in names && keep(f.name)
  {
    if names != [] {
      var head := if keep(names[0]) then [FilePath(relDir, names[0])] else [];
      assert Kept(relDir, names, keep) == head + Kept(relDir, names[1..], keep);
      KeptExactly(relDir, names[1..], keep, f);
      assert f.name in names <==> f.name == names[0] || f.name in names[1..] by {
        assert names == [names[0]] + names[1..];
      }
    }
  }

  /** A directory contributes exactly its listed names whose suffix is supported. */
  lemma SupportedFilesExactly(relDir: seq<string>, names: seq<string>, f: FilePath)
    ensures f in SupportedFiles(relDir, names) <==> f.relDir == relDir && f.name in names && IsSupported(f.name)
  {
    KeptExactly(relDir, names, IsSupported, f);
  }

  /** The walk yields f exactly when some directory it does not skip contributes f. */
  lemma {:induction false} GetFilesFromEntries(parts: seq<string>, walk: seq<WalkEntry>, f: FilePath)
    ensures f in GetFiles(parts, walk) <==>
      exists e :: 0 <= e < |walk| && !InIndexFolder(parts, walk[e].relDir) && f in SupportedFiles(walk[e].relDir, walk[e].files)
  {
    if walk != [] {
      var rest := walk[1..];
      GetFilesFromEntries(parts, rest, f);
      if e :| 1 <= e < |walk| && !InIndexFolder(parts, walk[e].relDir) && f in SupportedFiles(walk[e].relDir, walk[e].files) {
        assert rest[e - 1] == walk[e];
      }
      if e :| 0 <= e < |rest| && !InIndexFolder(parts, rest[e].relDir) && f in SupportedFiles(rest[e].relDir, rest[e].files) {
        assert walk[e + 1] == rest[e];
      }
    }
  }

  /** The walk entry lists f's name in f's directory, and the walk does not skip that directory. */
  predicate ListsFile(parts: seq<string>, entry: WalkEntry, f: FilePath) {
    entry.relDir == f.relDir && f.name in entry.files && !InIndexFolder(parts, entry.relDir)
  }

  /**
   * _get_files yields a file exactly when its name has a supported suffix
   * and it was listed under a directory the walk does not skip.
   */
  lemma GetFilesExactly(parts: seq<string>, walk: seq<WalkEntry>, f: FilePath)
    ensures f in GetFiles(parts, walk) <==>
      IsSupported(f.name) && exists e :: 0 <= e < |walk| && ListsFile(parts, walk[e], f)
  {
    GetFilesFromEntries(parts, walk, f);
    if e :| 0 <= e < |walk| && !InIndexFolder(parts, walk[e].relDir) && f in SupportedFiles(walk[e].relDir, walk[e].files) {
      SupportedFilesExactly(walk[e].relDir, walk[e].files, f);
    }
    if IsSupported(f.name) && exists e :: 0 <= e < |walk| && ListsFile(parts, walk[e], f) {
      var e :| 0 <= e < |walk| && ListsFile(parts, walk[e], f);
      SupportedFilesExactly(walk[e].relDir, walk[e].files, f);
    }
  }

  /** What _load_file reads for a file, chosen by its lower-cased suffix; None for a suffix it does not handle. */
  function Content(folder: Folder, file: FilePath): Option<Result<string>> {
    var suffix := FileType(file);
    if suffix in Config.TEXT_EXTENSIONS || suffix in Config.CODE_EXTENSIONS then Some(folder.readText(file))
    else if suffix in Config.PDF_EXTENSIONS then Some(Success(folder.pdfText(file)))
    else if suffix in Config.DOCX_EXTENSIONS then Some(Success(folder.docxText(file)))
    else None
  }

  /** The outcome of _load_file: the file's chunks, or the error raised while reading it. */
  function FileChunks(folder: Folder, file: FilePath): Result<seq<Document>> {
    match Content(folder, file)
    case None => Success([])
    case Some(Failure(e)) => Failure(e)
    case Some(Success(text)) =>
      if IsBlank(text) then Success([]) else Success(Chunks(text, file, Config.CHUNK_SIZE, Config.CHUNK_OVERLAP))
  }

  /** A chunk as the loader produces it: non-blank, at most one window long, of a supported file type. */
  predicate LoadedChunk(d: Document) {
    && 0 < |d.content| <= Config.CHUNK_SIZE
    && !IsBlank(d.content)
    && d.metadata.fileType in Config.SupportedExtensions()
  }

  /** DocumentLoader._load_file. */
  method LoadFile(folder: Folder, file: FilePath) returns (r: Result<seq<Document>>)
    ensures r == FileChunks(folder, file)
    ensures r.Failure? <==> Content(folder, file).Some? && Content(folder, file).value.Failure?
    ensures !IsSupported(file.name) ==> r == Success([])
    ensures (Content(folder, file).Some? && Content(folder, file).value.Success?
             && IsBlank(Content(folder, file).value.value)) ==> r == Success([])
    ensures r.Success? ==> forall j :: 0 <= j < |r.value| ==>
      && LoadedChunk(r.value[j])
      && r.value[j].metadata.source == RelativePath(file)
      && r.value[j].metadata.fileType == FileType(file)
  {
    var suffix := FileType(file);
    var content: string;
    if suffix in Config.TEXT_EXTENSIONS || suffix in Config.CODE_EXTENSIONS {
      var read := folder.readText(file);
      if read.Failure? {
        return Failure(read.error);
      }
      content := read.value;
    } else if suffix in Config.PDF_EXTENSIONS {
      content := folder.pdfText(file);
    } else if suffix in Config.DOCX_EXTENSIONS {
      content := folder.docxText(file);
    } else {
      return Success([]);
    }
    if IsBlank(content) {
      return Success([]);
    }
    var chunks := ChunkText(content, file, Config.CHUNK_SIZE, Config.CHUNK_OVERLAP);
    forall j | 0 <= j < |chunks|
      ensures LoadedChunk(chunks[j]) && chunks[j].metadata.source == RelativePath(file)
      ensures chunks[j].metadata.fileType == FileType(file)
    {
      ChunkShape(content, RelativePath(file), FileType(file), Config.CHUNK_SIZE, Config.CHUNK_OVERLAP, j);
    }
    return Success(chunks);
  }

  /** What a file adds to load_all's result: its chunks, or nothing when loading it raised. */
  function Contribution(folder: Folder, file: FilePath): seq<Document> {
    match FileChunks(folder, file)
    case Success(ds) => ds
    case Failure(_) => []
  }

  /** The contribution of each file of a folder, as a function. */
  function Contributor(folder: Folder): FilePath -> seq<Document> {
    file => Contribution(folder, file)
  }

  /** The concatenation, in file order, of every file's contribution. */
  function LoadedChunks(folder: Folder, files: seq<FilePath>): seq<Document> {
    ConcatMap(Contributor(folder), files)
  }

  /** DocumentLoader.load_all: a file whose loading raises is skipped and the loop goes on. */
  method LoadAll(folder: Folder) returns (documents: seq<Document>)
    ensures documents == LoadedChunks(folder, GetFiles(folder.parts, folder.walk))
  {
    documents := LoadFiles(folder, GetFiles(folder.parts, folder.walk));
  }

  /** load_all's loop over the files `_get_files` yields. */
  method LoadFiles(folder: Folder, files: seq<FilePath>) returns (documents: seq<Document>)
    ensures documents == LoadedChunks(folder, files)
  {
    documents := [];
    for i := 0 to |files|
      invariant documents == LoadedChunks(folder, files[..i])
    {
      var docs := LoadFile(folder, files[i]);
      LoadedChunksStep(folder, files, i);
      if docs.Success? {
        documents := documents + docs.value;
      }
    }
    assert files[..|files|] == files;
  }

  /** One iteration of load_all appends the contribution of file i. */
  lemma LoadedChunksStep(folder: Folder, files: seq<FilePath>, i: nat)
    requires i < |files|
    ensures LoadedChunks(folder, files[..i + 1]) == LoadedChunks(folder, files[..i]) + Contribution(folder, files[i])
  {
    assert files[..i + 1] == files[..i] + [files[i]];
    assert files[..i + 1][..i] == files[..i];
  }

  /** Loading a list of files made of two parts gives the chunks of the first part, then those of the second. */
  lemma LoadedChunksAppend(folder: Folder, a: seq<FilePath>, b: seq<FilePath>)
    ensures LoadedChunks(folder, a + b) == LoadedChunks(folder, a) + LoadedChunks(folder, b)
  {
    ConcatMapAppend(Contributor(folder), a, b);
  }

  /** A file whose loading raises contributes nothing, and every other file is still loaded. */
  lemma FailingFileSkipped(folder: Folder, files: seq<FilePath>, i: nat)
    requires i < |files| && FileChunks(folder, files[i]).Failure?
    ensures LoadedChunks(folder, files) == LoadedChunks(folder, files[..i] + files[i + 1..])
  {
    assert Contributor(folder)(files[i]) == [];
    ConcatMapSkip(Contributor(folder), files, i);
  }

  predicate AllLoadedChunks(ds: seq<Document>) {
    forall j :: 0 <= j < |ds| ==> LoadedChunk(ds[j])
  }

  /** Every chunk load_all returns is non-blank, at most CHUNK_SIZE long and of a supported file type. */
  lemma {:induction false} LoadedChunksWellFormed(folder: Folder, files: seq<FilePath>)
    ensures AllLoadedChunks(LoadedChunks(folder, files))
  {
    if files != [] {
      var prev := LoadedChunks(folder, files[..|files| - 1]);
      var file := files[|files| - 1];
      var last := Contribution(folder, file);
      LoadedChunksWellFormed(folder, files[..|files| - 1]);
      if FileChunks(folder, file).Success? && last != [] {
        var text := Content(folder, file).value.value;
        forall j | 0 <= j < |last| ensures LoadedChunk(last[j]) {
          ChunkShape(text, RelativePath(file), FileType(file), Config.CHUNK_SIZE, Config.CHUNK_OVERLAP, j);
        }
      }
      var ds := LoadedChunks(folder, files);
      forall j | 0 <= j < |ds| ensures LoadedChunk(ds[j]) {
        if j < |prev| {
          assert ds[j] == prev[j];
        } else {
          assert ds[j] == last[j - |prev|];
        }
      }
    }
  }
}
