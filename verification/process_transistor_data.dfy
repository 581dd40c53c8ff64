/**
 * The script that turns scraped transistor pages into the catalogue file and
 * the chunk files of twenty transistors the site loads.
 */
module ProcessTransistorData {
  import opened Wrappers
  import opened Text
  import opened Seqs
  import opened ComponentTypes
  import opened TransistorUtils
  import opened Chunking

  /** Transistors per chunk file. */
  const ChunkSize := 20

  /** The catalogue file written before the chunks. */
  const TransistorsFile := "transistors.json"

  /** The pages the extractor turns into a transistor: a non-empty text holding "Type Designator:". */
  predicate Extractable(text: Option<string>) {
    TruthyText(text) && Contains(text.value, TypeDesignatorLabel)
  }

  function ExtractableTest(): Option<string> -> bool {
    text => Extractable(text)
  }

  /** The extractor with its page patterns and number formatting fixed. */
  function Extraction(patterns: PagePatterns, fmt: real -> string): Option<string> -> Option<TransistorComponent> {
    text => ExtractedRecord(text, patterns, fmt)
  }

  /**
   * `transistors` holds, in page order, the records the extractor returns for
   * the pages: the non-null extraction results.
   */
  predicate ExtractedFrom(transistors: seq<TransistorComponent>, pages: seq<Option<string>>, patterns: PagePatterns,
                          fmt: real -> string) {
    transistors == Collect(pages, Extraction(patterns, fmt))
  }

  /** One call of the extractor: the extracted record, present exactly for an extractable page. */
  method ExtractOne(text: Option<string>, patterns: PagePatterns, fmt: real -> string)
    returns (r: Option<TransistorComponent>)
    ensures r == ExtractedRecord(text, patterns, fmt)
    ensures r.Some? <==> Extractable(text)
  {
    r := ExtractTransistorFromScrapedData(text, patterns, fmt);
  }

  /**
   * The extraction loop: every page goes through the extractor and each
   * transistor it returns is pushed, in page order.
   */
  method ExtractAll(pages: seq<Option<string>>, patterns: PagePatterns, fmt: real -> string)
    returns (transistors: seq<TransistorComponent>)
    ensures ExtractedFrom(transistors, pages, patterns, fmt)
  {
    transistors := [];
    for i := 0 to |pages|
      invariant ExtractedFrom(transistors, pages[..i], patterns, fmt)
    {
      var transistor := ExtractOne(pages[i], patterns, fmt);
      CollectPush(pages, i, Extraction(patterns, fmt));
      if transistor.Some? {
        transistors := transistors + [transistor.value];
      } else {
        assert transistors + [] == transistors;
      }
    }
    assert pages[..|pages|] == pages;
  }

  /**
   * The chunking loop: slices of twenty taken at 0, 20, 40, … while the
   * start is inside the list; they are exactly the chunks of the list.
   */
  method ChunkTransistors(transistors: seq<TransistorComponent>) returns (chunks: seq<seq<TransistorComponent>>)
    ensures chunks == Chunks(transistors, ChunkSize)
  {
    chunks := [];
    var i := 0;
    while i < |transistors|
      invariant i == ChunkSize * |chunks|
      invariant ChunkSize * (|chunks| - 1) < |transistors|
      invariant forall j | 0 <= j < |chunks| :: j * ChunkSize <= |transistors| && chunks[j] == ChunkOf(transistors, ChunkSize, j)
      decreases |transistors| - i
    {
      SliceFrom(transistors, i, ChunkSize);
      var chunk := Slice(transistors, i, i + ChunkSize);
      assert |chunks| * ChunkSize == i;
      chunks := chunks + [chunk];
      i := i + ChunkSize;
    }
    CeilDivUnique(|transistors|, ChunkSize, |chunks|);
    ChunksMeaning(transistors, ChunkSize);
  }

  /** The extractor returns a record exactly for the extractable pages. */
  lemma RecordPresence(text: Option<string>, patterns: PagePatterns, fmt: real -> string)
    ensures ExtractedRecord(text, patterns, fmt).Some? <==> Extractable(text)
  {
  }

  /** There is one extracted transistor per extractable page. */
  lemma ExtractedCount(pages: seq<Option<string>>, patterns: PagePatterns, fmt: real -> string)
    ensures |Collect(pages, Extraction(patterns, fmt))| == |Filter(pages, ExtractableTest())|
  {
    forall text
      ensures Extraction(patterns, fmt)(text).Some? <==> ExtractableTest()(text)
    {
      RecordPresence(text, patterns, fmt);
    }
    CollectCount(pages, Extraction(patterns, fmt), ExtractableTest());
  }

  /** The writing loop: chunk `i` goes to `components-chunk-${i + 1}.json`. */
  method NameChunks(chunks: seq<seq<TransistorComponent>>) returns (files: seq<ChunkFile<TransistorComponent>>)
    ensures |files| == |chunks|
    ensures forall i | 0 <= i < |files| :: files[i] == ChunkFile(ChunkFileName(i), chunks[i])
  {
    files := [];
    for i := 0 to |chunks|
      invariant |files| == i
      invariant forall j | 0 <= j < i :: files[j] == ChunkFile(ChunkFileName(j), chunks[j])
    {
      files := files + [ChunkFile(ChunkFileName(i), chunks[i])];
    }
  }

  /** What the script writes: the catalogue file, then the chunk files. */
  datatype Output = Output(catalogue: ChunkFile<TransistorComponent>, chunkFiles: seq<ChunkFile<TransistorComponent>>)

  /**
   * `processTransistorData`: the catalogue file holds one transistor per
   * extractable page, in order; the chunk files, named by their position,
   * hold at most twenty each and together the whole catalogue in order.
   */
  method ProcessTransistorData(pages: seq<Option<string>>, patterns: PagePatterns, fmt: real -> string)
    returns (output: Output)
    ensures output.catalogue.name == TransistorsFile
    ensures ExtractedFrom(output.catalogue.components, pages, patterns, fmt)
    ensures |output.chunkFiles| == CeilDiv(|output.catalogue.components|, ChunkSize)
    ensures output.chunkFiles == [] <==> output.catalogue.components == []
    ensures forall i | 0 <= i < |output.chunkFiles| ::
      && i * ChunkSize < |output.catalogue.components|
      && output.chunkFiles[i] == ChunkFile(ChunkFileName(i), ChunkOf(output.catalogue.components, ChunkSize, i))
      && 0 < |output.chunkFiles[i].components| <= ChunkSize
      && (i < |output.chunkFiles| - 1 ==> |output.chunkFiles[i].components| == ChunkSize)
    ensures Flatten(Contents(output.chunkFiles)) == output.catalogue.components
  {
    var transistors := ExtractAll(pages, patterns, fmt);
    var catalogue := ChunkFile(TransistorsFile, transistors);
    var chunks := ChunkTransistors(transistors);
    var files := NameChunks(chunks);
    ChunksMeaning(transistors, ChunkSize);
    FilesHoldChunks(files, transistors, ChunkSize);
    output := Output(catalogue, files);
  }
}
