/**
 * Cutting a list into consecutive chunks of a fixed size, as both data
 * scripts do before writing one file per chunk.
 */
module Chunking {
  import opened Seqs
  import opened Text

  /** The chunks of `s`, front to back: `size` elements each, the last one possibly shorter. */
  function Chunks<T>(s: seq<T>, size: nat): seq<seq<T>>
    requires size > 0
    decreases |s|
  {
    if s == [] then []
    else if |s| <= size then [s]
    else [s[..size]] + Chunks(s[size..], size)
  }

  /** The chunks joined back together, front to back. */
  function Flatten<T>(chunks: seq<seq<T>>): seq<T> {
    if chunks == [] then [] else chunks[0] + Flatten(chunks[1..])
  }

  /** Chunk `i`: the elements from `i * size` up to the next multiple of `size` or the end. */
  function ChunkOf<T>(s: seq<T>, size: nat, i: nat): seq<T>
    requires i * size <= |s|
  {
    s[i * size..Min(i * size + size, |s|)]
  }

  /** The number of chunks is pinned down by its bounds. */
  lemma CeilDivUnique(a: int, b: int, r: int)
    requires b > 0 && b * (r - 1) < a <= b * r
    ensures r == CeilDiv(a, b)
  {
    var q := CeilDiv(a, b);
    if r < q {
      MulMonotone(b, r, q - 1);
    } else if q < r {
      MulMonotone(b, q, r - 1);
    }
  }

  lemma MulMonotone(b: int, x: int, y: int)
    requires b > 0 && x <= y
    ensures b * x <= b * y
  {
    assert b * y - b * x == b * (y - x);
  }

  /** Joined back together, the chunks give `s`. */
  lemma {:induction false} ChunksJoin<T>(s: seq<T>, size: nat)
    requires size > 0
    ensures Flatten(Chunks(s, size)) == s
    decreases |s|
  {
    if s == [] {
    } else if |s| <= size {
      assert Flatten([s]) == s + Flatten([]);
    } else {
      ChunksJoin(s[size..], size);
      assert Chunks(s, size)[1..] == Chunks(s[size..], size);
      assert s == s[..size] + s[size..];
    }
  }

  /** There are ⌈|s| / size⌉ chunks. */
  lemma {:induction false} ChunksCount<T>(s: seq<T>, size: nat)
    requires size > 0
    ensures |Chunks(s, size)| == CeilDiv(|s|, size)
    decreases |s|
  {
    if s == [] {
      CeilDivUnique(0, size, 0);
    } else if |s| <= size {
      CeilDivUnique(|s|, size, 1);
    } else {
      ChunksCount(s[size..], size);
      CeilDivUnique(|s|, size, CeilDiv(|s| - size, size) + 1);
    }
  }

  /**
   * Chunk `i` starts at `i * size` and is `ChunkOf(s, size, i)`; it is
   * non-empty, at most `size` long, and exactly `size` unless it is the last.
   */
  lemma {:induction false} ChunksAt<T>(s: seq<T>, size: nat)
    requires size > 0
    ensures forall i | 0 <= i < |Chunks(s, size)| ::
      && i * size < |s|
      && Chunks(s, size)[i] == ChunkOf(s, size, i)
      && 0 < |Chunks(s, size)[i]| <= size
      && (i < |Chunks(s, size)| - 1 ==> |Chunks(s, size)[i]| == size)
    decreases |s|
  {
    var cs := Chunks(s, size);
    if |s| > size {
      var rest := s[size..];
      ChunksAt(rest, size);
      assert cs[1..] == Chunks(rest, size);
      forall i | 0 <= i < |cs|
        ensures i * size < |s| && cs[i] == ChunkOf(s, size, i)
      {
        if i > 0 {
          ChunkOfShift(s, size, i);
        }
      }
    }
  }

  /** Chunk `i` of `s` is chunk `i - 1` of `s` without its first `size` elements. */
  lemma ChunkOfShift<T>(s: seq<T>, size: nat, i: nat)
    requires size > 0 && 0 < i && size <= |s| && (i - 1) * size <= |s| - size
    ensures i * size <= |s|
    ensures ChunkOf(s[size..], size, i - 1) == ChunkOf(s, size, i)
  {
    var a := (i - 1) * size;
    var b := i * size;
    MulStep(i, size);
    assert b == a + size;
    var m := Min(a + size, |s| - size);
    assert ChunkOf(s, size, i) == s[b..Min(b + size, |s|)];
    assert ChunkOf(s[size..], size, i - 1) == s[size..][a..m];
    assert m + size == Min(b + size, |s|);
    assert s[size..][a..m] == s[size + a..size + m];
  }

  lemma MulStep(i: int, size: int)
    ensures (i - 1) * size + size == i * size
  {
  }

  /**
   * The chunks partition `s`: joined they give `s` back; there are
   * ⌈|s| / size⌉ of them; and chunk `i` is `ChunkOf(s, size, i)`, non-empty,
   * at most `size` long and exactly `size` unless it is the last.
   */
  lemma ChunksMeaning<T>(s: seq<T>, size: nat)
    requires size > 0
    ensures Flatten(Chunks(s, size)) == s
    ensures |Chunks(s, size)| == CeilDiv(|s|, size)
    ensures forall i | 0 <= i < |Chunks(s, size)| ::
      && i * size < |s|
      && Chunks(s, size)[i] == ChunkOf(s, size, i)
      && 0 < |Chunks(s, size)[i]| <= size
      && (i < |Chunks(s, size)| - 1 ==> |Chunks(s, size)[i]| == size)
  {
    ChunksJoin(s, size);
    ChunksCount(s, size);
    ChunksAt(s, size);
  }

  /** A file written by either script: its name and the components it holds. */
  datatype ChunkFile<T> = ChunkFile(name: string, components: seq<T>)

  function ComponentsOf<T>(f: ChunkFile<T>): seq<T> {
    f.components
  }

  /** The components of each file, file by file. */
  function Contents<T>(files: seq<ChunkFile<T>>): seq<seq<T>> {
    Map(files, ComponentsOf)
  }

  /** The name of the `i`-th chunk file, counting from 0: `components-chunk-${i + 1}.json`. */
  function ChunkFileName(i: nat): string {
    "components-chunk-" + IntToString(i + 1) + ".json"
  }

  /** Two chunk files get the same name only when they are the same chunk. */
  lemma ChunkFileNamesDistinct(i: nat, j: nat)
    ensures ChunkFileName(i) == ChunkFileName(j) <==> i == j
  {
    if ChunkFileName(i) == ChunkFileName(j) {
      SameFrame("components-chunk-", IntToString(i + 1), IntToString(j + 1), ".json");
      IntToStringInjective(i + 1, j + 1);
    }
  }

  /**
   * Files holding chunk after chunk of `s`, one per chunk, hold exactly
   * `Chunks(s, size)`, so together they hold `s` in order.
   */
  lemma FilesHoldChunks<T>(files: seq<ChunkFile<T>>, s: seq<T>, size: nat)
    requires size > 0 && |files| == CeilDiv(|s|, size)
    requires forall j | 0 <= j < |files| :: j * size <= |s| && files[j].components == ChunkOf(s, size, j)
    ensures Contents(files) == Chunks(s, size)
    ensures Flatten(Contents(files)) == s
  {
    ChunksMeaning(s, size);
    MapAt(files, ComponentsOf);
  }
}
