/**
 * The script that splits the combined component file into files of a
 * thousand components each.
 */
module SplitComponents {
  import opened Seqs
  import opened Chunking

  /** Components per output file. */
  const ChunkSize := 1000

  /** The input's `components` field: an array, or anything else (missing included). */
  datatype ComponentsField<T> = NotAnArray | AnArray(items: seq<T>)

  /** The script ends with an error exit, or having written its files in order. */
  datatype Outcome<T> = Failed | Written(files: seq<ChunkFile<T>>)

  /**
   * `splitComponentsJson`: refuses an input whose `components` is not an
   * array; otherwise writes ⌈n / 1000⌉ files, the `i`-th named
   * `components-chunk-${i + 1}.json` and holding components `1000 i` up to
   * `1000 (i + 1)` or the end, so that the files hold the input in order.
   */
  method SplitComponentsJson<T>(components: ComponentsField<T>) returns (outcome: Outcome<T>)
    ensures outcome.Failed? <==> components.NotAnArray?
    ensures outcome.Written? ==> |outcome.files| == CeilDiv(|components.items|, ChunkSize)
    ensures outcome.Written? ==> forall i | 0 <= i < |outcome.files| ::
      && i * ChunkSize < |components.items|
      && outcome.files[i] == ChunkFile(ChunkFileName(i), ChunkOf(components.items, ChunkSize, i))
      && 0 < |outcome.files[i].components| <= ChunkSize
      && (i < |outcome.files| - 1 ==> |outcome.files[i].components| == ChunkSize)
    ensures outcome.Written? ==> Contents(outcome.files) == Chunks(components.items, ChunkSize)
    ensures outcome.Written? ==> Flatten(Contents(outcome.files)) == components.items
  {
    if components.NotAnArray? {
      return Failed;
    }
    var items := components.items;
    var totalComponents := |items|;
    var totalChunks := CeilDiv(totalComponents, ChunkSize);
    assert totalChunks >= 0 by {
      if totalChunks < 0 {
        MulMonotone(ChunkSize, totalChunks, -1);
      }
    }
    var files: seq<ChunkFile<T>> := [];
    for i := 0 to totalChunks
      invariant |files| == i
      invariant forall j | 0 <= j < i :: j * ChunkSize <= totalComponents && files[j] == ChunkFile(ChunkFileName(j), ChunkOf(items, ChunkSize, j))
    {
      MulMonotone(ChunkSize, i, totalChunks - 1);
      var start := i * ChunkSize;
      var end := Min(start + ChunkSize, totalComponents);
      var chunk := Slice(items, start, end);
      assert chunk == ChunkOf(items, ChunkSize, i);
      files := files + [ChunkFile(ChunkFileName(i), chunk)];
    }
    FilesHoldChunks(files, items, ChunkSize);
    ChunksMeaning(items, ChunkSize);
    outcome := Written(files);
  }
}
