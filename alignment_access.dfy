/** The alignment access façade (BamManager): lazy opening of a BAM/CRAM file,
    index creation, capped queries, iterators in three output classes,
    coverage and global statistics. The file system is a set of existing
    paths plus what htsjdk reads from each alignment file; the coverage and
    statistics calculators are opaque accumulator updates. */
module AlignmentAccess {
  import opened Wrappers
  import opened AlignmentIterators

  /** The ceiling on what `query` returns, whatever the options say. */
  const DEFAULT_MAX_NUM_RECORDS: nat := 50000

  /** A genomic interval, 1-based and inclusive. */
  datatype Region = Region(chromosome: string, start: int, end: int)

  datatype AlignmentOptions = AlignmentOptions(limit: int, minBaseQuality: int, contained: bool, binQualities: bool)

  /** What `new AlignmentOptions()` holds: no limit set, no base-quality
      threshold, overlap (not containment) queries, qualities left unbinned. */
  const DefaultOptions: AlignmentOptions := AlignmentOptions(0, 0, false, false)

  /** A null options argument is replaced by the defaults. */
  function OrDefault(options: Option<AlignmentOptions>): AlignmentOptions
  {
    match options
    case Some(o) => o
    case None => DefaultOptions
  }

  /** The `@HD SO` header field (section 1.3 of the SAMv1 specification). */
  datatype SortOrder = Unsorted | Queryname | Coordinate | Duplicate | Unknown

  /** The physical format htsjdk detects when it opens a file. */
  datatype ReaderType = BamType | CramType | SamType | SraType

  /** What htsjdk's SamReader gives for one file: its header's sort order, its
      format, the records of a whole-file scan, and the records an indexed
      region query returns (given the region and the containment flag). */
  datatype SamFile = SamFile(
    sortOrder: SortOrder,
    readerType: ReaderType,
    records: seq<SamRecord>,
    query: (Region, bool) -> seq<SamRecord>)

  /** The class argument that selects an iterator's output representation. */
  datatype OutputKind =
    | SamRecordClass
    | AvroReadAlignmentClass
    | ProtoReadAlignmentClass
    | OtherClass(name: string)

  datatype Indexer = BamIndexer | CramBaiIndexer

  /** An absolute path: its parent directory and its file name. */
  datatype Path = Path(parent: string, fileName: string) {
    function ToString(): string
    {
      parent + "/" + fileName
    }
  }

  datatype Error =
    | FileNotFound(path: string)
    | NotAnAlignmentFile(path: string)
    | MissingBamIndex(bam: string)
    | NotSortedByCoordinate(order: SortOrder)
    | NotBamOrCram(readerType: ReaderType)
    | UnknownAlignmentModelClass(kind: OutputKind)
    | ReaderClosed(bam: string)

  /** Where `coverage(region, windowSize)` takes its values from. */
  datatype CoverageSource = BigWigFile(path: string) | FromAlignments | NoSource

  /** `new RegionCoverage(region)` and SamRecordRegionCoverageCalculator's
      `update`, for a given minimum base quality; both are opaque here. */
  datatype CoverageCalculator<!C> = CoverageCalculator(empty: Region -> C, update: (int, C, SamRecord) -> C)

  /** `new AlignmentGlobalStats()` and SamRecordAlignmentGlobalStatsCalculator's
      `compute` and `update(computed, running)`; all opaque here. */
  datatype StatsCalculator<!S> = StatsCalculator(empty: S, compute: SamRecord -> S, update: (S, S) -> S)

  /** What the façade's operations depend on: the existing paths, the content
      of each alignment file, the BAM path, the reader opened so far and
      whether `close()` has closed it. */
  datatype Snapshot = Snapshot(paths: set<string>, alignments: map<string, SamFile>, bam: Path, reader: Option<SamFile>,
                               closed: bool)

  function Min(a: int, b: int): int
  {
    if a < b then a else b
  }

  /** The number of records `query` keeps: the options' limit when it is
      positive, but never more than DEFAULT_MAX_NUM_RECORDS. */
  function QueryCap(options: AlignmentOptions): (cap: nat)
    ensures 0 < cap <= DEFAULT_MAX_NUM_RECORDS
    ensures options.limit > 0 ==> cap <= options.limit
    ensures 0 < options.limit <= DEFAULT_MAX_NUM_RECORDS ==> cap == options.limit
    ensures options.limit <= 0 || options.limit >= DEFAULT_MAX_NUM_RECORDS ==> cap == DEFAULT_MAX_NUM_RECORDS
  {
    if options.limit > 0 then Min(options.limit, DEFAULT_MAX_NUM_RECORDS) else DEFAULT_MAX_NUM_RECORDS
  }

  /** The limit handed to an iterator: a positive limit as it is, anything else
      as -1 (unbounded). */
  function IteratorLimit(options: AlignmentOptions): (limit: int)
    ensures limit > 0 <==> options.limit > 0
    ensures limit > 0 ==> limit == options.limit
    ensures limit <= 0 ==> limit == -1
  {
    if options.limit > 0 then options.limit else -1
  }

  /** The output class an element of an iterator belongs to. */
  predicate IsOfKind(a: Alignment, kind: OutputKind)
  {
    match a
    case Native(_) => kind == SamRecordClass
    case Avro(_) => kind == AvroReadAlignmentClass
    case Proto(_) => kind == ProtoReadAlignmentClass
  }

  /** The class dispatch of `getAlignmentIterator`: each accepted class selects
      the iterator that produces elements of that class; any other class is
      rejected with IllegalArgumentException. */
  function ResolveVariant(kind: OutputKind, binQualities: bool): (r: Result<IteratorVariant, Error>)
    ensures r.Ok? <==> !kind.OtherClass?
    ensures r.Err? ==> r.error == UnknownAlignmentModelClass(kind)
    ensures r.Ok? ==> forall a :: Produces(r.value, a) ==> IsOfKind(a, kind)
    ensures r.Ok? && !r.value.SamRecordIterator? ==> r.value.binQualities == binQualities
  {
    match kind
    case AvroReadAlignmentClass => Ok(AvroIterator(binQualities))
    case ProtoReadAlignmentClass => Ok(ProtoIterator(binQualities))
    case SamRecordClass => Ok(SamRecordIterator)
    case OtherClass(_) => Err(UnknownAlignmentModelClass(kind))
  }

  /** The guard of `createIndex`: the sort order is checked first, then the
      format selects the indexer. */
  function IndexerFor(order: SortOrder, readerType: ReaderType): (r: Result<Indexer, Error>)
    ensures order != Coordinate ==> r == Err(NotSortedByCoordinate(order))
    ensures r == Ok(BamIndexer) <==> order == Coordinate && readerType == BamType
    ensures r == Ok(CramBaiIndexer) <==> order == Coordinate && readerType == CramType
    ensures order == Coordinate && readerType != BamType && readerType != CramType ==> r == Err(NotBamOrCram(readerType))
  {
    if order != Coordinate then Err(NotSortedByCoordinate(order))
    else if readerType == BamType then Ok(BamIndexer)
    else if readerType == CramType then Ok(CramBaiIndexer)
    else Err(NotBamOrCram(readerType))
  }

  /** The path the index check looks for: the BAM path with `.bai` appended. */
  function BaiPath(bam: Path): string
  {
    bam.ToString() + ".bai"
  }

  /** The index path `createIndex()` uses when none is given: the sibling file
      named after the BAM file, which is exactly the path the index check
      looks for. */
  function DefaultIndexPath(bam: Path): (p: Path)
    ensures p.parent == bam.parent
    ensures p.ToString() == BaiPath(bam)
  {
    Path(bam.parent, bam.fileName + ".bai")
  }

  /** The resolution order of `coverage(region, windowSize)`: `<bam>.bw`, then
      `<bam>.coverage.bw`, then the alignments themselves only when the window
      is a single base, and otherwise nothing. */
  function CoverageSourceFor(paths: set<string>, bam: string, windowSize: int): (s: CoverageSource)
    ensures s == BigWigFile(bam + ".bw") <==> bam + ".bw" in paths
    ensures s == BigWigFile(bam + ".coverage.bw") <==> bam + ".bw" !in paths && bam + ".coverage.bw" in paths
    ensures s.FromAlignments? <==> bam + ".bw" !in paths && bam + ".coverage.bw" !in paths && windowSize == 1
    ensures s.NoSource? <==> bam + ".bw" !in paths && bam + ".coverage.bw" !in paths && windowSize != 1
    ensures s.BigWigFile? ==> s.path in paths
  {
    assert |bam + ".bw"| != |bam + ".coverage.bw"|;
    if bam + ".bw" in paths then BigWigFile(bam + ".bw")
    else if bam + ".coverage.bw" in paths then BigWigFile(bam + ".coverage.bw")
    else if windowSize == 1 then FromAlignments
    else NoSource
  }

  /** Opening a file with htsjdk: it must exist and hold alignments. */
  function OpenReader(paths: set<string>, alignments: map<string, SamFile>, path: string): Result<SamFile, Error>
  {
    if path !in paths then Err(FileNotFound(path))
    else if path !in alignments then Err(NotAnAlignmentFile(path))
    else Ok(alignments[path])
  }

  /** `init()`: the BAM file must exist on every call; the reader is opened only
      the first time and reused afterwards. */
  function InitOutcome(s: Snapshot): (r: Result<SamFile, Error>)
    ensures s.bam.ToString() !in s.paths ==> r == Err(FileNotFound(s.bam.ToString()))
    ensures s.bam.ToString() in s.paths && s.reader.Some? ==> r == Ok(s.reader.value)
    ensures s.bam.ToString() in s.paths && s.reader.None? ==>
      && (r.Ok? <==> s.bam.ToString() in s.alignments)
      && (r.Ok? ==> r.value == s.alignments[s.bam.ToString()])
      && (r.Err? ==> r.error == NotAnAlignmentFile(s.bam.ToString()))
  {
    if s.bam.ToString() !in s.paths then Err(FileNotFound(s.bam.ToString()))
    else if s.reader.Some? then Ok(s.reader.value)
    else OpenReader(s.paths, s.alignments, s.bam.ToString())
  }

  /** The reader field after `init()`. */
  function ReaderAfterInit(s: Snapshot): Option<SamFile>
  {
    match InitOutcome(s)
    case Ok(reader) => Some(reader)
    case Err(_) => s.reader
  }

  /** Whether the reader `init()` leaves is a closed one: a reader it opens is
      open, a reader it reuses is as `close()` left it. */
  function ClosedAfterInit(s: Snapshot): bool
  {
    if s.reader.None? && InitOutcome(s).Ok? then false else s.closed
  }

  /** The raw records an iterator reads: an indexed region query, or a scan of
      the whole file. */
  function RawSource(reader: SamFile, region: Option<Region>, options: AlignmentOptions): seq<SamRecord>
  {
    match region
    case Some(r) => reader.query(r, options.contained)
    case None => reader.records
  }

  /** Building an iterator (either form): initialise, check the index, ask the
      reader for its records (htsjdk refuses on a closed reader), then
      dispatch on the output class. On success, the outputs the iterator will
      yield. */
  function IteratorOutcome(s: Snapshot, region: Option<Region>, filters: seq<Filter>,
                           options: Option<AlignmentOptions>, kind: OutputKind): (r: Result<seq<Alignment>, Error>)
    ensures InitOutcome(s).Err? ==> r == Err(InitOutcome(s).error)
    ensures r.Ok? <==> InitOutcome(s).Ok? && BaiPath(s.bam) in s.paths && !ClosedAfterInit(s) && !kind.OtherClass?
    ensures r.Ok? ==> forall k :: 0 <= k < |r.value| ==> IsOfKind(r.value[k], kind)
  {
    match InitOutcome(s)
    case Err(e) => Err(e)
    case Ok(reader) =>
      if BaiPath(s.bam) !in s.paths then Err(MissingBamIndex(s.bam.ToString()))
      else if ClosedAfterInit(s) then Err(ReaderClosed(s.bam.ToString()))
      else
        var opts := OrDefault(options);
        match ResolveVariant(kind, opts.binQualities)
        case Err(e) => Err(e)
        case Ok(v) => Ok(Outputs(RawSource(reader, region, opts), filters, v, IteratorLimit(opts)))
  }

  /** `query`: the iterator's outputs, drained up to the cap. */
  function QueryOutcome(s: Snapshot, region: Option<Region>, filters: seq<Filter>,
                        options: Option<AlignmentOptions>, kind: OutputKind): (r: Result<seq<Alignment>, Error>)
    ensures var it := IteratorOutcome(s, region, filters, Some(OrDefault(options)), kind);
      && (r.Ok? <==> it.Ok?)
      && (r.Err? ==> r.error == it.error)
      && (r.Ok? ==> r.value <= it.value && |r.value| <= QueryCap(OrDefault(options)))
  {
    match IteratorOutcome(s, region, filters, Some(OrDefault(options)), kind)
    case Err(e) => Err(e)
    case Ok(outs) => Ok(Limit(outs, QueryCap(OrDefault(options))))
  }

  /** The direct coverage computation: the mapped records among the native
      iterator's outputs, fed in order to the calculator; if building the
      iterator fails, the empty coverage of the region. */
  function DirectCoverage<C>(s: Snapshot, region: Region, filters: seq<Filter>,
                             options: AlignmentOptions, calculator: CoverageCalculator<C>): (c: C)
    ensures IteratorOutcome(s, Some(region), filters, Some(options), SamRecordClass).Err? ==> c == calculator.empty(region)
  {
    match IteratorOutcome(s, Some(region), filters, Some(options), SamRecordClass)
    case Err(_) => calculator.empty(region)
    case Ok(outs) => Feed(CoverageUpdate(calculator, options.minBaseQuality), calculator.empty(region), Mapped(Records(outs)))
  }

  function CoverageUpdate<C>(calculator: CoverageCalculator<C>, minBaseQuality: int): (C, SamRecord) -> C
  {
    (c, r) => calculator.update(minBaseQuality, c, r)
  }

  /** One step of `calculateGlobalStats`: compute the record's contribution and
      merge it into the running total. */
  function StatsUpdate<S>(calculator: StatsCalculator<S>): (S, SamRecord) -> S
  {
    (acc, r) => calculator.update(calculator.compute(r), acc)
  }

  /** What `query` returns never exceeds the cap: the options' positive limit
      and DEFAULT_MAX_NUM_RECORDS. */
  lemma QueryBounded(s: Snapshot, region: Option<Region>, filters: seq<Filter>,
                     options: Option<AlignmentOptions>, kind: OutputKind)
    requires QueryOutcome(s, region, filters, options, kind).Ok?
    ensures |QueryOutcome(s, region, filters, options, kind).value| <= DEFAULT_MAX_NUM_RECORDS
    ensures OrDefault(options).limit > 0 ==> |QueryOutcome(s, region, filters, options, kind).value| <= OrDefault(options).limit
  {
  }

  /** `query` returns the records that pass the filters, converted to the asked
      class, in source order and as a prefix: it stops at whichever comes
      first, the end of the source or the cap. */
  lemma QueryIsCappedPrefix(s: Snapshot, region: Option<Region>, filters: seq<Filter>,
                            options: Option<AlignmentOptions>, kind: OutputKind)
    requires QueryOutcome(s, region, filters, options, kind).Ok?
    ensures InitOutcome(s).Ok?
    ensures var v := QueryOutcome(s, region, filters, options, kind).value;
      var accepted := Accepted(filters, RawSource(InitOutcome(s).value, region, OrDefault(options)));
      && Records(v) <= accepted
      && |v| == Min(|accepted|, QueryCap(OrDefault(options)))
      && forall k :: 0 <= k < |v| ==> IsOfKind(v[k], kind)
  {
    var opts := OrDefault(options);
    var v := ResolveVariant(kind, opts.binQualities).value;
    var accepted := Accepted(filters, RawSource(InitOutcome(s).value, region, opts));
    var encoded := EncodeAll(v, accepted);
    var cap := QueryCap(opts);
    LimitOfLimit(encoded, IteratorLimit(opts), cap);
    var out := QueryOutcome(s, region, filters, options, kind).value;
    assert out == Limit(encoded, cap);
    assert out == encoded[..|out|];
    RecordsOfPrefix(encoded, |out|);
  }

  /** Both iterator forms, and therefore `query`, fail with the missing-index
      error whenever the `.bai` file is absent, whatever the region, filters,
      options or output class: the check comes before any read or query. */
  lemma MissingIndexFailsFirst(s: Snapshot, region: Option<Region>, filters: seq<Filter>,
                               options: Option<AlignmentOptions>, kind: OutputKind)
    requires InitOutcome(s).Ok? && BaiPath(s.bam) !in s.paths
    ensures IteratorOutcome(s, region, filters, options, kind) == Err(MissingBamIndex(s.bam.ToString()))
    ensures QueryOutcome(s, region, filters, options, kind) == Err(MissingBamIndex(s.bam.ToString()))
  {
  }

  /** With the index in place, a reader that is open and an accepted output
      class, building an iterator succeeds. */
  lemma IndexedFileIterates(s: Snapshot, region: Option<Region>, filters: seq<Filter>,
                            options: Option<AlignmentOptions>, kind: OutputKind)
    requires InitOutcome(s).Ok? && BaiPath(s.bam) in s.paths && !ClosedAfterInit(s) && !kind.OtherClass?
    ensures IteratorOutcome(s, region, filters, options, kind).Ok?
  {
  }

  /** Direct coverage sees exactly the mapped records among those that pass
      the filters (up to the options' limit), in source order. */
  lemma DirectCoverageFeedsMapped<C>(s: Snapshot, region: Region, filters: seq<Filter>,
                                     options: AlignmentOptions, calculator: CoverageCalculator<C>)
    requires InitOutcome(s).Ok? && BaiPath(s.bam) in s.paths && !ClosedAfterInit(s)
    ensures DirectCoverage(s, region, filters, options, calculator)
         == Feed(CoverageUpdate(calculator, options.minBaseQuality), calculator.empty(region),
                 Mapped(Limit(Accepted(filters, InitOutcome(s).value.query(region, options.contained)), IteratorLimit(options))))
  {
    NativeOutputs(InitOutcome(s).value.query(region, options.contained), filters, IteratorLimit(options));
  }

  /** `close()` does not forget the reader, and `init()` hands the closed reader
      back: afterwards, with the file and its index in place, every iterator,
      and so every query, fails. */
  lemma ClosedReaderFails(s: Snapshot, region: Option<Region>, filters: seq<Filter>,
                          options: Option<AlignmentOptions>, kind: OutputKind)
    requires s.bam.ToString() in s.paths && BaiPath(s.bam) in s.paths
    requires s.reader.Some? && s.closed
    ensures IteratorOutcome(s, region, filters, options, kind) == Err(ReaderClosed(s.bam.ToString()))
    ensures QueryOutcome(s, region, filters, options, kind) == Err(ReaderClosed(s.bam.ToString()))
  {
  }

  /** Draining stops when the source is exhausted or the cap is reached; either
      way what was drained is the source cut at the cap. */
  lemma DrainedUpToCap<T>(drained: seq<T>, rest: seq<T>, all: seq<T>, cap: nat)
    requires 0 < cap
    requires drained + rest == all && |drained| <= cap
    requires rest == [] || |drained| == cap
    ensures drained == Limit(all, cap)
  {
    if rest != [] {
      assert all[..cap] == drained;
    }
  }

  /** A file system: the paths that exist and what htsjdk reads from each
      alignment file. Only index creation changes it. */
  class FileSystem {
    var paths: set<string>
    var alignments: map<string, SamFile>

    constructor (paths: set<string>, alignments: map<string, SamFile>)
      ensures this.paths == paths && this.alignments == alignments
    {
      this.paths := paths;
      this.alignments := alignments;
    }
  }

  class BamManager {
    var bamFile: Path
    var samReader: Option<SamFile>
    var readerClosed: bool

    /** The field assignments of `BamManager(bamFilePath)`; its existence check
        is made by `Create`. */
    constructor (bamFilePath: Path)
      ensures bamFile == bamFilePath && samReader == None && !readerClosed
    {
      bamFile := bamFilePath;
      samReader := None;
      readerClosed := false;
    }

    /** `new BamManager(bamFilePath)` as a whole: the file must exist, otherwise
        the constructor throws and no manager is made. */
    static method Create(fs: FileSystem, bamFilePath: Path) returns (r: Result<BamManager, Error>)
      ensures r.Ok? <==> bamFilePath.ToString() in fs.paths
      ensures r.Err? ==> r.error == FileNotFound(bamFilePath.ToString())
      ensures r.Ok? ==> fresh(r.value) && r.value.bamFile == bamFilePath && r.value.samReader.None? && !r.value.readerClosed
    {
      if bamFilePath.ToString() !in fs.paths {
        return Err(FileNotFound(bamFilePath.ToString()));
      }
      var manager := new BamManager(bamFilePath);
      r := Ok(manager);
    }

    function State(fs: FileSystem): Snapshot
      reads this, fs
    {
      Snapshot(fs.paths, fs.alignments, bamFile, samReader, readerClosed)
    }

    method Init(fs: FileSystem) returns (r: Result<SamFile, Error>)
      modifies this`samReader, this`readerClosed
      ensures r == InitOutcome(old(State(fs)))
      ensures samReader == ReaderAfterInit(old(State(fs)))
      ensures readerClosed == ClosedAfterInit(old(State(fs)))
    {
      if bamFile.ToString() !in fs.paths {
        return Err(FileNotFound(bamFile.ToString()));
      }
      if samReader.None? {
        var openResult := OpenReader(fs.paths, fs.alignments, bamFile.ToString());
        if openResult.Err? {
          return Err(openResult.error);
        }
        samReader := Some(openResult.value);
        readerClosed := false;
      }
      r := Ok(samReader.value);
    }

    method CheckBaiFileExists(fs: FileSystem) returns (r: Result<(), Error>)
      ensures r.Ok? <==> BaiPath(bamFile) in fs.paths
      ensures r.Err? ==> r.error == MissingBamIndex(bamFile.ToString())
    {
      if BaiPath(bamFile) !in fs.paths {
        return Err(MissingBamIndex(bamFile.ToString()));
      }
      r := Ok(());
    }

    /** `createIndex(outputIndex)`: on success the index file exists and its
        path is returned; on failure nothing is written. */
    method CreateIndex(fs: FileSystem, outputIndex: Path) returns (r: Result<Path, Error>)
      modifies fs`paths
      ensures r.Ok? ==> r.value == outputIndex
      ensures var openResult := OpenReader(old(fs.paths), fs.alignments, bamFile.ToString());
        if outputIndex.parent !in old(fs.paths) then r == Err(FileNotFound(outputIndex.parent))
        else if openResult.Err? then r == Err(openResult.error)
        else match IndexerFor(openResult.value.sortOrder, openResult.value.readerType)
          case Err(e) => r == Err(e)
          case Ok(_) => r == Ok(outputIndex)
      ensures fs.paths == if r.Ok? then old(fs.paths) + {outputIndex.ToString()} else old(fs.paths)
    {
      if outputIndex.parent !in fs.paths {
        return Err(FileNotFound(outputIndex.parent));
      }
      var openResult := OpenReader(fs.paths, fs.alignments, bamFile.ToString());
      if openResult.Err? {
        return Err(openResult.error);
      }
      var reader := openResult.value;
      match IndexerFor(reader.sortOrder, reader.readerType) {
        case Err(e) =>
          return Err(e);
        case Ok(_) =>
          // Either indexer writes the index file at outputIndex.
          fs.paths := fs.paths + {outputIndex.ToString()};
      }
      r := Ok(outputIndex);
    }

    /** `createIndex()`: index into the sibling `.bai` path; once it succeeds,
        the index check that guards every iterator passes. */
    method CreateDefaultIndex(fs: FileSystem) returns (r: Result<Path, Error>)
      modifies fs`paths
      ensures var openResult := OpenReader(old(fs.paths), fs.alignments, bamFile.ToString());
        if bamFile.parent !in old(fs.paths) then r == Err(FileNotFound(bamFile.parent))
        else if openResult.Err? then r == Err(openResult.error)
        else match IndexerFor(openResult.value.sortOrder, openResult.value.readerType)
          case Err(e) => r == Err(e)
          case Ok(_) => r == Ok(DefaultIndexPath(bamFile))
      ensures fs.paths == if r.Ok? then old(fs.paths) + {BaiPath(bamFile)} else old(fs.paths)
    {
      r := CreateIndex(fs, DefaultIndexPath(bamFile));
    }

    /** `getAlignmentIterator`: the iterator class chosen by `kind` over `raw`. */
    static method GetAlignmentIterator(filters: seq<Filter>, options: Option<AlignmentOptions>, kind: OutputKind,
                                       raw: seq<SamRecord>) returns (r: Result<BamIterator, Error>)
      ensures var v := ResolveVariant(kind, OrDefault(options).binQualities);
        && (r.Ok? <==> v.Ok?)
        && (r.Err? ==> r.error == v.error)
        && (r.Ok? ==> fresh(r.value) && !r.value.closed
                      && r.value.pending == Outputs(raw, filters, v.value, IteratorLimit(OrDefault(options))))
    {
      var alignmentOptions := OrDefault(options);
      var limit := IteratorLimit(alignmentOptions);
      var v := ResolveVariant(kind, alignmentOptions.binQualities);
      if v.Err? {
        return Err(v.error);
      }
      var it := new BamIterator(raw, filters, v.value, limit);
      r := Ok(it);
    }

    /** `iterator(filters, options, clazz)`: a whole-file scan. */
    method WholeFileIterator(fs: FileSystem, filters: seq<Filter>, options: Option<AlignmentOptions>, kind: OutputKind)
      returns (r: Result<BamIterator, Error>)
      modifies this`samReader, this`readerClosed
      ensures samReader == ReaderAfterInit(old(State(fs))) && readerClosed == ClosedAfterInit(old(State(fs)))
      ensures var o := IteratorOutcome(old(State(fs)), None, filters, options, kind);
        && (r.Ok? <==> o.Ok?)
        && (r.Err? ==> r.error == o.error)
        && (r.Ok? ==> fresh(r.value) && !r.value.closed && r.value.pending == o.value)
    {
      var init := Init(fs);
      if init.Err? {
        return Err(init.error);
      }
      var bai := CheckBaiFileExists(fs);
      if bai.Err? {
        return Err(bai.error);
      }
      if readerClosed {
        return Err(ReaderClosed(bamFile.ToString()));
      }
      r := GetAlignmentIterator(filters, options, kind, init.value.records);
    }

    /** `iterator(region, filters, options, clazz)`: an indexed region query. */
    method RegionIterator(fs: FileSystem, region: Region, filters: seq<Filter>, options: Option<AlignmentOptions>,
                          kind: OutputKind) returns (r: Result<BamIterator, Error>)
      modifies this`samReader, this`readerClosed
      ensures samReader == ReaderAfterInit(old(State(fs))) && readerClosed == ClosedAfterInit(old(State(fs)))
      ensures var o := IteratorOutcome(old(State(fs)), Some(region), filters, options, kind);
        && (r.Ok? <==> o.Ok?)
        && (r.Err? ==> r.error == o.error)
        && (r.Ok? ==> fresh(r.value) && !r.value.closed && r.value.pending == o.value)
    {
      var init := Init(fs);
      if init.Err? {
        return Err(init.error);
      }
      var bai := CheckBaiFileExists(fs);
      if bai.Err? {
        return Err(bai.error);
      }
      if readerClosed {
        return Err(ReaderClosed(bamFile.ToString()));
      }
      var opts := OrDefault(options);
      var raw := init.value.query(region, opts.contained);
      r := GetAlignmentIterator(filters, Some(opts), kind, raw);
    }

    /** The choice `query` makes between the two iterator forms: a region query
        when a region is given, a whole-file scan otherwise. */
    method OpenIterator(fs: FileSystem, region: Option<Region>, filters: seq<Filter>, options: Option<AlignmentOptions>,
                        kind: OutputKind) returns (r: Result<BamIterator, Error>)
      modifies this`samReader, this`readerClosed
      ensures samReader == ReaderAfterInit(old(State(fs))) && readerClosed == ClosedAfterInit(old(State(fs)))
      ensures var o := IteratorOutcome(old(State(fs)), region, filters, options, kind);
        && (r.Ok? <==> o.Ok?)
        && (r.Err? ==> r.error == o.error)
        && (r.Ok? ==> fresh(r.value) && !r.value.closed && r.value.pending == o.value)
    {
      if region.Some? {
        r := RegionIterator(fs, region.value, filters, options, kind);
      } else {
        r := WholeFileIterator(fs, filters, options, kind);
      }
    }

    /** The loop of `query`: take outputs until the iterator is exhausted or
        the cap is reached, then close the iterator. */
    static method DrainUpTo(bamIterator: BamIterator, maxNumberRecords: nat) returns (results: seq<Alignment>)
      requires 0 < maxNumberRecords
      modifies bamIterator
      ensures results == Limit(old(bamIterator.pending), maxNumberRecords)
      ensures bamIterator.closed
    {
      ghost var outs := bamIterator.pending;
      results := [];
      while bamIterator.HasNext() && |results| < maxNumberRecords
        invariant results + bamIterator.pending == outs
        invariant |results| <= maxNumberRecords
        decreases |bamIterator.pending|
      {
        var a := bamIterator.Next();
        results := results + [a];
      }
      bamIterator.Close();
      DrainedUpToCap(results, bamIterator.pending, outs, maxNumberRecords);
    }

    /** `query(region, filters, options, clazz)`: drain the iterator into a list
        until it is exhausted or the cap is reached, then close it. */
    method Query(fs: FileSystem, region: Option<Region>, filters: seq<Filter>, options: Option<AlignmentOptions>,
                 kind: OutputKind) returns (r: Result<seq<Alignment>, Error>)
      modifies this`samReader, this`readerClosed
      ensures samReader == ReaderAfterInit(old(State(fs))) && readerClosed == ClosedAfterInit(old(State(fs)))
      ensures r == QueryOutcome(old(State(fs)), region, filters, options, kind)
    {
      ghost var s := State(fs);
      var opts := OrDefault(options);
      var maxNumberRecords := QueryCap(opts);
      var built := OpenIterator(fs, region, filters, Some(opts), kind);
      if built.Err? {
        return Err(built.error);
      }
      var results := DrainUpTo(built.value, maxNumberRecords);
      r := Ok(results);
    }

    /** `coverage(region, filters, options)`: feed every mapped record of the
        region to the coverage calculator. A failure to build the iterator is
        swallowed and the coverage is returned as it stands. */
    method Coverage<C>(fs: FileSystem, region: Region, filters: seq<Filter>, options: Option<AlignmentOptions>,
                       calculator: CoverageCalculator<C>) returns (regionCoverage: C)
      modifies this`samReader, this`readerClosed
      ensures samReader == ReaderAfterInit(old(State(fs))) && readerClosed == ClosedAfterInit(old(State(fs)))
      ensures regionCoverage == DirectCoverage(old(State(fs)), region, filters, OrDefault(options), calculator)
    {
      ghost var s := State(fs);
      regionCoverage := calculator.empty(region);
      var opts := OrDefault(options);
      ghost var update := CoverageUpdate(calculator, opts.minBaseQuality);
      var built := RegionIterator(fs, region, filters, Some(opts), SamRecordClass);
      if built.Err? {
        return;
      }
      var recordIterator := built.value;
      ghost var outs := recordIterator.pending;
      assert IteratorOutcome(s, Some(region), filters, Some(opts), SamRecordClass) == Ok(outs);
      while recordIterator.HasNext()
        invariant Feed(update, regionCoverage, Mapped(Records(recordIterator.pending)))
               == Feed(update, calculator.empty(region), Mapped(Records(outs)))
        invariant samReader == ReaderAfterInit(s) && readerClosed == ClosedAfterInit(s)
        decreases |recordIterator.pending|
      {
        ghost var before := recordIterator.pending;
        var next := recordIterator.Next();
        assert Records(before) == [RecordOf(next)] + Records(recordIterator.pending);
        var rec := RecordOf(next);
        if !rec.readUnmappedFlag {
          regionCoverage := calculator.update(opts.minBaseQuality, regionCoverage, rec);
        }
      }
      recordIterator.Close();
    }

    /** `coverage(region, windowSize)`: a precomputed BigWig track when one of
        the two conventional siblings exists, direct computation for a window
        of one base, otherwise null. `readBigWig` stands for the BigWig
        averaging of `coverage(region, windowSize, bigwigPath)`. */
    method WindowedCoverage<C>(fs: FileSystem, region: Region, windowSize: int, calculator: CoverageCalculator<C>,
                               readBigWig: (string, Region, int) -> C) returns (r: Option<C>)
      modifies this`samReader, this`readerClosed
      ensures match CoverageSourceFor(old(fs.paths), old(bamFile.ToString()), windowSize)
        case BigWigFile(p) =>
          r == Some(readBigWig(p, region, windowSize)) && samReader == old(samReader) && readerClosed == old(readerClosed)
        case FromAlignments =>
          && r == Some(DirectCoverage(old(State(fs)), region, [], DefaultOptions, calculator))
          && samReader == ReaderAfterInit(old(State(fs))) && readerClosed == ClosedAfterInit(old(State(fs)))
        case NoSource => r == None && samReader == old(samReader) && readerClosed == old(readerClosed)
    {
      var bam := bamFile.ToString();
      if bam + ".bw" in fs.paths {
        return Some(readBigWig(bam + ".bw", region, windowSize));
      } else if bam + ".coverage.bw" in fs.paths {
        return Some(readBigWig(bam + ".coverage.bw", region, windowSize));
      } else if windowSize == 1 {
        var c := Coverage(fs, region, [], Some(DefaultOptions), calculator);
        return Some(c);
      }
      r := None;
    }

    /** `calculateGlobalStats`: merge every record's computed contribution into
        the running total, in iteration order, then close the iterator. */
    static method CalculateGlobalStats<S>(recordIterator: BamIterator, calculator: StatsCalculator<S>) returns (stats: S)
      modifies recordIterator
      ensures stats == Feed(StatsUpdate(calculator), calculator.empty, Records(old(recordIterator.pending)))
      ensures recordIterator.closed && recordIterator.pending == []
    {
      stats := calculator.empty;
      ghost var update := StatsUpdate(calculator);
      ghost var outs := recordIterator.pending;
      while recordIterator.HasNext()
        invariant Feed(update, stats, Records(recordIterator.pending)) == Feed(update, calculator.empty, Records(outs))
        decreases |recordIterator.pending|
      {
        ghost var before := recordIterator.pending;
        var next := recordIterator.Next();
        assert Records(before) == [RecordOf(next)] + Records(recordIterator.pending);
        var computed := calculator.compute(RecordOf(next));
        stats := calculator.update(computed, stats);
      }
      recordIterator.Close();
    }

    /** `stats()`: global statistics over a whole-file scan with default options. */
    method Stats<S>(fs: FileSystem, calculator: StatsCalculator<S>) returns (r: Result<S, Error>)
      modifies this`samReader, this`readerClosed
      ensures samReader == ReaderAfterInit(old(State(fs))) && readerClosed == ClosedAfterInit(old(State(fs)))
      ensures var o := IteratorOutcome(old(State(fs)), None, [], Some(DefaultOptions), SamRecordClass);
        && (r.Ok? <==> o.Ok?)
        && (r.Err? ==> r.error == o.error)
        && (r.Ok? ==> r.value == Feed(StatsUpdate(calculator), calculator.empty, Records(o.value)))
    {
      var built := WholeFileIterator(fs, [], Some(DefaultOptions), SamRecordClass);
      if built.Err? {
        return Err(built.error);
      }
      var s := CalculateGlobalStats(built.value, calculator);
      r := Ok(s);
    }

    /** `stats(region, filters, options)`: global statistics over a region. */
    method RegionStats<S>(fs: FileSystem, region: Region, filters: seq<Filter>, options: Option<AlignmentOptions>,
                          calculator: StatsCalculator<S>) returns (r: Result<S, Error>)
      modifies this`samReader, this`readerClosed
      ensures samReader == ReaderAfterInit(old(State(fs))) && readerClosed == ClosedAfterInit(old(State(fs)))
      ensures var o := IteratorOutcome(old(State(fs)), Some(region), filters, options, SamRecordClass);
        && (r.Ok? <==> o.Ok?)
        && (r.Err? ==> r.error == o.error)
        && (r.Ok? ==> r.value == Feed(StatsUpdate(calculator), calculator.empty, Records(o.value)))
    {
      var built := RegionIterator(fs, region, filters, options, SamRecordClass);
      if built.Err? {
        return Err(built.error);
      }
      var s := CalculateGlobalStats(built.value, calculator);
      r := Ok(s);
    }

    /** `close()`: closes the reader if one was opened; the field keeps it. */
    method Close()
      modifies this`readerClosed
      ensures samReader.None? ==> readerClosed == old(readerClosed)
      ensures samReader.Some? ==> readerClosed
    {
      if samReader.Some? {
        readerClosed := true;
      }
    }
  }
}
