# biodata core in Dafny

A verified model of three pieces of the biodata libraries.

- **`BamManager`** is the alignment access façade. It opens a BAM/CRAM file lazily with htsjdk and creates its index. It also runs capped queries, builds record iterators in three output classes (the native SAMRecord, the GA4GH Avro ReadAlignment and the protobuf ReadAlignment), computes region coverage, and gathers global statistics.
- **`VcfFileReader`** is the batch VCF reader. `open` splits the leading header lines off the file. `read(batchSize)` decodes the following lines in batches, skips comment and blank lines, and reports malformed lines to every registered handler.
- **`AssertionTypeAttrSCVonly`** is the ClinVar 2.4 enumeration. It maps one enum constant to and from its schema string.

What the model abstracts:

- **File system.** It is a set of existing path strings. For the alignment façade, it also holds what htsjdk reads from each alignment file: the header sort order, the format, the records of a whole-file scan, and the records of an indexed region query. The VCF reader sees the file system as a map from file names to their lines.
- **Library calls.** htsjdk's readers and the FullVcfCodec header parser and line decoder are opaque functions. So are the coverage and statistics calculators.
- **Iterators.** A record iterator is a class that holds the outputs it has not yet yielded. A specification function, `Outputs`, fixes those outputs as the records that pass every filter, converted to the output class and cut at the limit.

Files:

- `wrappers.dfy`: Option and Result.
- `clinvar.dfy`: module `ClinVar`, the enumeration.
- `alignment_iterators.dfy`: module `AlignmentIterators`, the records, the output classes, the iterator class and its specification.
- `alignment_access.dfy`: module `AlignmentAccess`, covering:
  - the pure decisions of the façade: the cap, the limit, class dispatch, the index guard and the coverage source;
  - the outcome functions that specify each operation;
  - the `BamManager` class.
- `vcf_reader.dfy`: module `VariantReading`, covering:
  - the header split;
  - the batch specification `ReadBatch`;
  - handler notification;
  - the `VcfFileReader` class.

## Model

| member | source | states |
|---|---|---|
| ClinVar.Values | biodata-formats/src/main/java/org/opencb/biodata/formats/variant/clinvar/v24jaxb/AssertionTypeAttrSCVonly.java:51-54 | `values()` lists every constant, each one once |
| ClinVar.FindByValue | biodata-formats/src/main/java/org/opencb/biodata/formats/variant/clinvar/v24jaxb/AssertionTypeAttrSCVonly.java:66-70 | the search loop returns the first constant whose value equals `v` exactly; it finds nothing exactly when no constant's value equals `v` |
| ClinVar.FromValue | biodata-formats/src/main/java/org/opencb/biodata/formats/variant/clinvar/v24jaxb/AssertionTypeAttrSCVonly.java:65-72 | `fromValue(v)` succeeds exactly when some constant's value equals `v`, and then returns a constant with that value; otherwise it fails with IllegalArgumentException carrying `v` |
| ClinVar.Value | biodata-formats/src/main/java/org/opencb/biodata/formats/variant/clinvar/v24jaxb/AssertionTypeAttrSCVonly.java:61-63 | `value()` returns the schema string the constant was declared with (no contract of its own; the lemmas below state its values) |
| ClinVar.ValueIsSchemaString | biodata-formats/src/main/java/org/opencb/biodata/formats/variant/clinvar/v24jaxb/AssertionTypeAttrSCVonly.java:53-54 | the single constant's `value()` is "variation to included disease" |
| ClinVar.ValueInjective | biodata-formats/src/main/java/org/opencb/biodata/formats/variant/clinvar/v24jaxb/AssertionTypeAttrSCVonly.java:53-63 | distinct constants have distinct values |
| ClinVar.FromValueOfValue | biodata-formats/src/main/java/org/opencb/biodata/formats/variant/clinvar/v24jaxb/AssertionTypeAttrSCVonly.java:61-70 | round trip: `fromValue(c.value()) == c` for every constant |
| ClinVar.ValueOfFromValue | biodata-formats/src/main/java/org/opencb/biodata/formats/variant/clinvar/v24jaxb/AssertionTypeAttrSCVonly.java:65-72 | reverse round trip: if `fromValue(v)` returns `c`, then `c.value() == v`; it accepts exactly the one schema string |
| ClinVar.FromValueIsCaseSensitive | biodata-formats/src/main/java/org/opencb/biodata/formats/variant/clinvar/v24jaxb/AssertionTypeAttrSCVonly.java:67 | matching is exact: a capitalised spelling, a padded spelling and the constant's Java name are all rejected with their own text |
| AlignmentIterators.Accepted | biodata-tools/src/main/java/org/opencb/biodata/tools/alignment/BamManager.java:268-275 | the records an iterator lets through are records of the source that pass every filter, and every source record that passes every filter is among them |
| AlignmentIterators.EncodeAll | biodata-tools/src/main/java/org/opencb/biodata/tools/alignment/BamManager.java:268-275 | one output per accepted record, in order: reading back each output's record gives the accepted records, every output is of the class the iterator variant produces, and Avro and protobuf outputs carry the binQualities option |
| AlignmentIterators.Limit | biodata-tools/src/main/java/org/opencb/biodata/tools/alignment/BamManager.java:263-266 | a positive limit keeps a prefix of length min(limit, size); the -1 "unbounded" limit keeps everything |
| AlignmentIterators.Outputs | biodata-tools/src/main/java/org/opencb/biodata/tools/alignment/BamManager.java:257-279 | what every iterator yields: reading back the records of its outputs gives the accepted records cut at the limit, and every output is of the class the iterator variant produces |
| AlignmentIterators.Mapped | biodata-tools/src/main/java/org/opencb/biodata/tools/alignment/BamManager.java:289-293 | the records the coverage loop feeds all have a false unmapped flag, and there are no more of them than records |
| AlignmentIterators.MappedMembers | biodata-tools/src/main/java/org/opencb/biodata/tools/alignment/BamManager.java:289-293 | a record is fed by the coverage loop iff it is one of the iterated records and its unmapped flag is false |
| AlignmentIterators.NativeOutputs | biodata-tools/src/main/java/org/opencb/biodata/tools/alignment/BamManager.java:274-275 | the SAMRecord iterator yields native records, exactly the accepted records cut at the limit |
| AlignmentIterators.AcceptedOfConcat | biodata-tools/src/main/java/org/opencb/biodata/tools/alignment/BamManager.java:268-275 | filtering preserves source order: filtering a concatenation is concatenating the filtered parts |
| AlignmentIterators.MappedOfConcat | biodata-tools/src/main/java/org/opencb/biodata/tools/alignment/BamManager.java:289-293 | dropping unmapped records never reorders the mapped ones |
| AlignmentIterators.FeedOfConcat | biodata-tools/src/main/java/org/opencb/biodata/tools/alignment/BamManager.java:289-293 | an accumulator interrupted after a prefix holds exactly that prefix's contribution |
| AlignmentIterators.LimitOfLimit | biodata-tools/src/main/java/org/opencb/biodata/tools/alignment/BamManager.java:190-203 | draining to a cap an iterator whose own limit is no smaller gives the source cut at the cap |
| AlignmentIterators.BamIterator.constructor | biodata-tools/src/main/java/org/opencb/biodata/tools/alignment/BamManager.java:270-275 | a new iterator will yield exactly `Outputs(raw, filters, variant, limit)` and is open |
| AlignmentIterators.BamIterator.HasNext | biodata-tools/src/main/java/org/opencb/biodata/tools/alignment/BamManager.java:201 | `hasNext()` holds while outputs remain; the loops of `query`, `coverage` (line 289) and `calculateGlobalStats` (line 352) end when it fails (no contract of its own) |
| AlignmentIterators.BamIterator.Next | biodata-tools/src/main/java/org/opencb/biodata/tools/alignment/BamManager.java:201-202 | `next()` returns the first pending output and removes it |
| AlignmentIterators.BamIterator.Close | biodata-tools/src/main/java/org/opencb/biodata/tools/alignment/BamManager.java:204 | `close()` marks the iterator closed |
| AlignmentAccess.OrDefault | biodata-tools/src/main/java/org/opencb/biodata/tools/alignment/BamManager.java:186-188 | null options are replaced by a fresh `AlignmentOptions`; lines 249-251 and 284-286 do the same (no contract of its own) |
| AlignmentAccess.QueryCap | biodata-tools/src/main/java/org/opencb/biodata/tools/alignment/BamManager.java:190-194 | the query cap is positive and at most 50000; it equals the limit when 0 < limit <= 50000 and equals 50000 when the limit is non-positive or above 50000 |
| AlignmentAccess.IteratorLimit | biodata-tools/src/main/java/org/opencb/biodata/tools/alignment/BamManager.java:263-266 | a positive option limit is passed through unchanged; anything else becomes -1 |
| AlignmentAccess.ResolveVariant | biodata-tools/src/main/java/org/opencb/biodata/tools/alignment/BamManager.java:268-278 | the three accepted classes each select an iterator whose every output is of that class and which carries the binQualities option; any other class fails with "Unknown alignment model class" |
| AlignmentAccess.IndexerFor | biodata-tools/src/main/java/org/opencb/biodata/tools/alignment/BamManager.java:110-127 | a sort order other than coordinate fails before the type is looked at; a coordinate-sorted file goes to the BAM indexer iff BAM and to the CRAM indexer iff CRAM; other types fail |
| AlignmentAccess.BaiPath | biodata-tools/src/main/java/org/opencb/biodata/tools/alignment/BamManager.java:368 | the path the index check looks for is the BAM path with `.bai` appended (no contract of its own) |
| AlignmentAccess.DefaultIndexPath | biodata-tools/src/main/java/org/opencb/biodata/tools/alignment/BamManager.java:91-93 | the default index is the sibling of the BAM file, and its path is the one the index check looks for |
| AlignmentAccess.CoverageSourceFor | biodata-tools/src/main/java/org/opencb/biodata/tools/alignment/BamManager.java:310-324 | `<bam>.bw` is used iff it exists; `<bam>.coverage.bw` iff it exists and the first does not; direct computation iff neither exists and windowSize == 1; null otherwise |
| AlignmentAccess.OpenReader | biodata-tools/src/main/java/org/opencb/biodata/tools/alignment/BamManager.java:80-82 | htsjdk's `open` fails on a missing file and on a file that is not an alignment file, and otherwise yields the file's reader; `createIndex` opens the same way at line 107 (no contract of its own) |
| AlignmentAccess.InitOutcome | biodata-tools/src/main/java/org/opencb/biodata/tools/alignment/BamManager.java:76-84 | `init()` fails whenever the BAM file is missing, even with a reader already open; an existing reader is reused as it is, closed or not; the first call opens the file, succeeding iff it is an alignment file and then yielding that file's reader, and otherwise failing with the not-an-alignment-file error |
| AlignmentAccess.ReaderAfterInit | biodata-tools/src/main/java/org/opencb/biodata/tools/alignment/BamManager.java:79-83 | `init()` stores the reader it opens and otherwise leaves the field as it was (no contract of its own) |
| AlignmentAccess.ClosedAfterInit | biodata-tools/src/main/java/org/opencb/biodata/tools/alignment/BamManager.java:79-83 | a reader `init()` opens is open; a reader it reuses is as `close()` left it (no contract of its own) |
| AlignmentAccess.RawSource | biodata-tools/src/main/java/org/opencb/biodata/tools/alignment/BamManager.java:252-253 | a region iterator reads `samReader.query` with the containment option, a whole-file iterator reads `samReader.iterator()` (line 228) (no contract of its own) |
| AlignmentAccess.IteratorOutcome | biodata-tools/src/main/java/org/opencb/biodata/tools/alignment/BamManager.java:224-279 | building an iterator fails with `init()`'s error when that fails; otherwise it succeeds iff the index exists, the reader is not closed and the class is accepted, and every output is then of the requested class |
| AlignmentAccess.QueryOutcome | biodata-tools/src/main/java/org/opencb/biodata/tools/alignment/BamManager.java:185-206 | a query succeeds iff building its iterator succeeds, fails with the same error otherwise, and on success returns a prefix of the iterator's outputs no longer than the cap |
| AlignmentAccess.DirectCoverage | biodata-tools/src/main/java/org/opencb/biodata/tools/alignment/BamManager.java:282-299 | when building the region iterator fails, the coverage is the region's empty coverage |
| AlignmentAccess.CoverageUpdate | biodata-tools/src/main/java/org/opencb/biodata/tools/alignment/BamManager.java:292 | one coverage step hands the record to the calculator built with the options' minimum base quality (no contract of its own) |
| AlignmentAccess.StatsUpdate | biodata-tools/src/main/java/org/opencb/biodata/tools/alignment/BamManager.java:353-354 | one statistics step computes the record's contribution and merges it into the running total (no contract of its own) |
| AlignmentAccess.QueryBounded | biodata-tools/src/main/java/org/opencb/biodata/tools/alignment/BamManager.java:190-203 | a query never returns more than 50000 records, nor more than a positive limit |
| AlignmentAccess.QueryIsCappedPrefix | biodata-tools/src/main/java/org/opencb/biodata/tools/alignment/BamManager.java:185-206 | a query returns, in source order, a prefix of the records that pass the filters, converted to the requested class; its length is min(number accepted, cap) |
| AlignmentAccess.MissingIndexFailsFirst | biodata-tools/src/main/java/org/opencb/biodata/tools/alignment/BamManager.java:224-229 | without `<bam>.bai`, both iterator forms and the query fail with "Missing BAM index", whatever the region, filters, options or class |
| AlignmentAccess.IndexedFileIterates | biodata-tools/src/main/java/org/opencb/biodata/tools/alignment/BamManager.java:244-254 | with the index present, a reader that is not closed and an accepted class, building an iterator succeeds |
| AlignmentAccess.ClosedReaderFails | biodata-tools/src/main/java/org/opencb/biodata/tools/alignment/BamManager.java:361-365 | after `close()` the reader is kept and reused by `init()`, so with the file and its index present every iterator and every query fails with the closed-reader error |
| AlignmentAccess.DirectCoverageFeedsMapped | biodata-tools/src/main/java/org/opencb/biodata/tools/alignment/BamManager.java:282-299 | direct coverage is the region's empty coverage updated, in order, with exactly the mapped records among the filtered region-query records cut at the limit |
| AlignmentAccess.DrainedUpToCap | biodata-tools/src/main/java/org/opencb/biodata/tools/alignment/BamManager.java:201-203 | the drain loop stops at exhaustion or at the cap, and in either case holds the outputs cut at the cap |
| AlignmentAccess.BamManager.constructor | biodata-tools/src/main/java/org/opencb/biodata/tools/alignment/BamManager.java:69-74 | the field assignments: a manager for the given BAM path, with no reader opened yet; the existence check is stated by `Create` |
| AlignmentAccess.BamManager.Create | biodata-tools/src/main/java/org/opencb/biodata/tools/alignment/BamManager.java:69-74 | `new BamManager(path)` succeeds iff the BAM file exists, and otherwise fails with the file-not-found error for that path; the new manager has no reader |
| AlignmentAccess.BamManager.Init | biodata-tools/src/main/java/org/opencb/biodata/tools/alignment/BamManager.java:76-84 | `init()` has the outcome `InitOutcome` gives for the current state, and leaves the reader field and its closed flag as `ReaderAfterInit` and `ClosedAfterInit` say |
| AlignmentAccess.BamManager.CheckBaiFileExists | biodata-tools/src/main/java/org/opencb/biodata/tools/alignment/BamManager.java:367-371 | succeeds iff `<bam>.bai` exists; otherwise fails with the missing-index error for the BAM path |
| AlignmentAccess.BamManager.CreateIndex | biodata-tools/src/main/java/org/opencb/biodata/tools/alignment/BamManager.java:102-130 | the checks run in source order: the output directory must exist, the file must open, and then the sort-order/type guard applies. On success the output path is returned and the index file exists; on failure no path is added |
| AlignmentAccess.BamManager.CreateDefaultIndex | biodata-tools/src/main/java/org/opencb/biodata/tools/alignment/BamManager.java:91-130 | `createIndex()` is `createIndex(<bam>.bai)`: the same checks in the same order, the sibling `.bai` path returned on success, that path added to the file system on success and nothing added on failure |
| AlignmentAccess.BamManager.GetAlignmentIterator | biodata-tools/src/main/java/org/opencb/biodata/tools/alignment/BamManager.java:257-279 | builds an iterator iff the class is accepted; the new iterator yields `Outputs` with the normalised limit, and null options become the defaults |
| AlignmentAccess.BamManager.WholeFileIterator | biodata-tools/src/main/java/org/opencb/biodata/tools/alignment/BamManager.java:224-230 | `init()`, then the index check, then a whole-file scan (refused by a closed reader) handed to `getAlignmentIterator`; outcome as `IteratorOutcome` with no region |
| AlignmentAccess.BamManager.RegionIterator | biodata-tools/src/main/java/org/opencb/biodata/tools/alignment/BamManager.java:244-255 | `init()`, then the index check, then an indexed region query with the containment option (refused by a closed reader); outcome as `IteratorOutcome` for the region |
| AlignmentAccess.BamManager.OpenIterator | biodata-tools/src/main/java/org/opencb/biodata/tools/alignment/BamManager.java:197-199 | a region query when a region is given, otherwise a whole-file scan |
| AlignmentAccess.BamManager.DrainUpTo | biodata-tools/src/main/java/org/opencb/biodata/tools/alignment/BamManager.java:196-204 | the loop of `query` returns the iterator's pending outputs cut at the cap, in order, and leaves the iterator closed |
| AlignmentAccess.BamManager.Query | biodata-tools/src/main/java/org/opencb/biodata/tools/alignment/BamManager.java:185-206 | the drained list is `QueryOutcome`: the iterator's outputs cut at the cap, or the error building the iterator failed with |
| AlignmentAccess.BamManager.Coverage | biodata-tools/src/main/java/org/opencb/biodata/tools/alignment/BamManager.java:282-299 | the result is `DirectCoverage`: the mapped records fed in order, or the empty coverage when building the iterator throws |
| AlignmentAccess.BamManager.WindowedCoverage | biodata-tools/src/main/java/org/opencb/biodata/tools/alignment/BamManager.java:310-324 | follows `CoverageSourceFor`: reads the BigWig file it names, computes directly with default options and no filters, or returns null |
| AlignmentAccess.BamManager.CalculateGlobalStats | biodata-tools/src/main/java/org/opencb/biodata/tools/alignment/BamManager.java:349-358 | the statistics fold every pending record, in iteration order, into a fresh accumulator; the iterator ends exhausted and closed |
| AlignmentAccess.BamManager.Stats | biodata-tools/src/main/java/org/opencb/biodata/tools/alignment/BamManager.java:341-343 | global statistics over a whole-file scan with default options, or the error building the iterator failed with |
| AlignmentAccess.BamManager.RegionStats | biodata-tools/src/main/java/org/opencb/biodata/tools/alignment/BamManager.java:345-347 | global statistics over a region with the given filters and options, or the error building the iterator failed with |
| AlignmentAccess.BamManager.Close | biodata-tools/src/main/java/org/opencb/biodata/tools/alignment/BamManager.java:361-365 | closes the reader if one was opened and does nothing otherwise; the reader field is kept and marked closed |
| VariantReading.HeaderLength | biodata-tools/src/main/java/org/opencb/biodata/tools/variant/VcfFileReader.java:54-64 | the leading run of lines beginning with `#`: every line in it is a header line, and the line after it is not |
| VariantReading.ReadBatch | biodata-tools/src/main/java/org/opencb/biodata/tools/variant/VcfFileReader.java:90-114 | a batch holds at most batchSize records, and a size of 0 consumes nothing. It stops short only when the lines run out or a non-malformed decode failure is rethrown; that failure comes from the last consumed line, which was not skipped, and it is only ever rethrown while the batch is not yet full. A full batch without a failure stops at the line whose record filled it. Every reported line really is malformed |
| VariantReading.IsSkipped | biodata-tools/src/main/java/org/opencb/biodata/tools/variant/VcfFileReader.java:94 | a line starting with `#`, or one that trims to nothing, is skipped (no contract of its own) |
| VariantReading.IsBlank | biodata-tools/src/main/java/org/opencb/biodata/tools/variant/VcfFileReader.java:94 | `trim().isEmpty()`: every character is at most the space (no contract of its own) |
| VariantReading.IsMalformed | biodata-tools/src/main/java/org/opencb/biodata/tools/variant/VcfFileReader.java:105-106 | a TribbleException is recovered from iff its message starts with the malformed-line prefix (no contract of its own) |
| VariantReading.BatchEndsAtFirstFailure | biodata-tools/src/main/java/org/opencb/biodata/tools/variant/VcfFileReader.java:105-110 | the batch ends at the first line whose decode failure is not a malformed line: every consumed line before the last was skipped, decoded or reported, and so was the last unless the batch failed |
| VariantReading.BatchFollowsLineOrder | biodata-tools/src/main/java/org/opencb/biodata/tools/variant/VcfFileReader.java:92-111 | a batch's records are exactly the records the consumed lines decode to, in line order; its reports are exactly the consumed malformed lines, in line order |
| VariantReading.SkippedLineDoesNotCount | biodata-tools/src/main/java/org/opencb/biodata/tools/variant/VcfFileReader.java:93-96 | a comment or blank line is consumed without producing a record and without counting toward the batch |
| VariantReading.HeaderIsSkippedByRead | biodata-tools/src/main/java/org/opencb/biodata/tools/variant/VcfFileReader.java:54-64 | reading the whole file gives the batch of the lines `open` leaves, offset by the header: the header lines are lines `read` would skip anyway |
| VariantReading.ReadStepSkipped | biodata-tools/src/main/java/org/opencb/biodata/tools/variant/VcfFileReader.java:93-96 | one loop turn over a skipped line keeps the batch invariant |
| VariantReading.ReadStepDecoded | biodata-tools/src/main/java/org/opencb/biodata/tools/variant/VcfFileReader.java:98-104 | one loop turn over a decodable line appends its record and keeps the batch invariant |
| VariantReading.ReadStepMalformed | biodata-tools/src/main/java/org/opencb/biodata/tools/variant/VcfFileReader.java:105-107 | one loop turn over a malformed line reports it and keeps the batch invariant |
| VariantReading.ReadStepFailed | biodata-tools/src/main/java/org/opencb/biodata/tools/variant/VcfFileReader.java:108-110 | any other decode failure ends the batch with that failure, after the line is consumed |
| VariantReading.Broadcast | biodata-tools/src/main/java/org/opencb/biodata/tools/variant/VcfFileReader.java:116-121 | reporting one line to the handler set, as a value: the definition `LogMalformatedLine`'s loop is proved against (no contract of its own) |
| VariantReading.BroadcastAll | biodata-tools/src/main/java/org/opencb/biodata/tools/variant/VcfFileReader.java:116-121 | reporting several lines keeps the set of inboxes and leaves unregistered handlers' inboxes untouched |
| VariantReading.BroadcastAllSnoc | biodata-tools/src/main/java/org/opencb/biodata/tools/variant/VcfFileReader.java:116-121 | reporting one more line after several is reporting them all |
| VariantReading.EachHandlerReceivesEachLineOnce | biodata-tools/src/main/java/org/opencb/biodata/tools/variant/VcfFileReader.java:116-121 | every registered handler receives every reported line exactly once, in report order; other inboxes are untouched and no handler is added or dropped |
| VariantReading.VcfFileReader.constructor | biodata-tools/src/main/java/org/opencb/biodata/tools/variant/VcfFileReader.java:40-43 | a reader for the given file with no handlers and nothing opened |
| VariantReading.VcfFileReader.RegisterMalformatedVcfHandler | biodata-tools/src/main/java/org/opencb/biodata/tools/variant/VcfFileReader.java:33-38 | adds the handler to the set, so a second registration changes nothing; returns the reader itself |
| VariantReading.VcfFileReader.Open | biodata-tools/src/main/java/org/opencb/biodata/tools/variant/VcfFileReader.java:46-87 | on a missing file, fails with nothing assigned. Otherwise it collects the maximal header prefix in order and leaves the first non-header line unconsumed; it returns true iff the header parses, and keeps the old header when it does not |
| VariantReading.VcfFileReader.LogMalformatedLine | biodata-tools/src/main/java/org/opencb/biodata/tools/variant/VcfFileReader.java:116-121 | whatever order the set yields the handlers in, the inboxes end as `Broadcast` gives: every registered handler's inbox grows by (line, error) exactly once, and every other inbox and the set of inboxes are unchanged |
| VariantReading.VcfFileReader.ReportMalformed | biodata-tools/src/main/java/org/opencb/biodata/tools/variant/VcfFileReader.java:106-107 | reporting one more malformed line during `read` keeps every inbox equal to the broadcast of all lines reported so far |
| VariantReading.VcfFileReader.ReadLine | biodata-tools/src/main/java/org/opencb/biodata/tools/variant/VcfFileReader.java:93-111 | one turn of the read loop consumes one line and keeps the cursor, the records and the handler inboxes in step with `ReadBatch` |
| VariantReading.VcfFileReader.Read | biodata-tools/src/main/java/org/opencb/biodata/tools/variant/VcfFileReader.java:90-114 | a negative size fails before anything is consumed. Otherwise the cursor advances by `ReadBatch`'s count, the handlers receive its malformed lines, and the result is its records or its rethrown failure |
| VariantReading.VcfFileReader.Close | biodata-tools/src/main/java/org/opencb/biodata/tools/variant/VcfFileReader.java:124-131 | closes the opened stream and returns true; fails on a reader never opened |
| VariantReading.VcfFileReader.GetVcfHeader | biodata-tools/src/main/java/org/opencb/biodata/tools/variant/VcfFileReader.java:133-139 | with a header already parsed, returns it and touches nothing. Otherwise it opens and closes the file: the header field becomes the parse of the leading header lines, the header lines and the remaining lines are as `open` left them, and the stream ends closed. On a missing file the header stays null and closing fails iff no stream was ever opened |

## Left out

- htsjdk itself is not modelled: opening a reader, the region semantics of `samReader.query`, the BAM and CRAM indexing algorithms, and FullVcfCodec's header parsing and line decoding. Each is a function supplied with the file's contents.
- The class bodies of SamRecordBamIterator, SAMRecordToAvroReadAlignmentBamIterator and SAMRecordToProtoReadAlignmentBamIterator are not part of this model. The model takes them to:
  - yield the records that pass every filter, in source order;
  - convert each record to the iterator's class;
  - stop after `limit` outputs when the limit is positive.
- `calculateBigWigCoverage` is left out. It launches an external `bamCoverage` process; that is process I/O.
- `coverage(region, windowSize, bigwigPath)` reads float averages from a BigWig file. `WindowedCoverage` takes it as a parameter.
- The coverage and statistics calculators are opaque accumulator updates: their per-base quality threshold and merge arithmetic are not modelled.
- AlignmentOptions is not part of this model. A null or fresh options object is taken to hold limit 0, minimum base quality 0, overlap queries and unbinned qualities.
- AlignmentAccess.BamManager.Coverage: only a failure to build the iterator is swallowed. An exception thrown while iterating is not modelled, so "the coverage as filled so far" after a mid-iteration failure is not stated.
- AlignmentAccess.IteratorOutcome, AlignmentAccess.IndexedFileIterates: open iterators are not tracked. htsjdk's reader refuses a new iterator while an earlier one on the same reader is still open, and the façade does not support concurrent iterators over one manager; the model lets a second iterator succeed regardless, so success is promised only for a manager with no iterator left open.
- AlignmentAccess.BamManager.Query: it closes the iterator only on the normal path, which `DrainUpTo` states. Release on an exception path is not claimed, because the source does not do it.
- AlignmentAccess.BamManager.CalculateGlobalStats: like `query`, it closes the iterator only on the normal path; mid-iteration exceptions are not modelled.
- AlignmentAccess.BamManager.Close: the source does not clear the reader field. So a later `init()` reuses the closed reader, and every iterator built on it fails; `ClosedReaderFails` states this. The closed-reader failure is one error value; which htsjdk exception carries it is not modelled. A second `close()` closes the reader again, and idempotence is not claimed.
- Paths are absolute (a parent directory plus a file name). A relative bare file name, whose parent is null in the source, is not modelled.
- AlignmentAccess.BamManager.constructor: it only assigns the fields; the existence check the source constructor makes is stated by `Create`, which builds a manager only for an existing file. Later calls do not all repeat the check: `init()` repeats it before the iterators, queries, coverage and statistics, but `createIndex` (lines 102-130) and the BigWig branches of `coverage(region, windowSize)` (lines 311-315) never call `init()`. A BAM file deleted after construction is still caught: by `init()`, which checks the file on every call (line 77) before every iterator, query, direct coverage and statistics call, and by the reader `createIndex` opens (line 107). Only the BigWig branches of `coverage(region, windowSize)` never notice it.
- The lazy genotype forcing in `read` is decoder behaviour and is left out, together with the `lazy` flag's effect.
- Other omissions on the VCF side:
  - logging and `printStackTrace`;
  - the `UncheckedIOException` wrapping in `close`;
  - the codec's internal line counter (the decoder is a function of the line alone).
- VariantReading.VcfFileReader.Read requires that `open` has assigned the line source; calling `read` earlier dereferences null in the source.
- VariantReading.VcfFileReader.LogMalformatedLine, VariantReading.VcfFileReader.Read and VariantReading.EachHandlerReceivesEachLineOnce take every handler to return normally. A handler that throws stops the notification of the remaining handlers and propagates out of `read`; that path is not modelled.
- Handlers are distinguished by identity. The order in which the HashSet yields them is left unspecified; each handler's record of what it received makes that order irrelevant.
- `fromValue(null)` is not modelled: the model's strings are never null.
- The JAXB annotations of the enumeration are metadata only.
