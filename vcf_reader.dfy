/** The batch VCF reader (VcfFileReader): `open` splits the leading header
    lines off a line source, `read(batchSize)` decodes the following lines in
    batches, skipping comment and blank lines and reporting malformed lines to
    every registered handler. The file system is a map from file names to
    their lines; FullVcfCodec's header parsing and line decoding are opaque
    functions. */
module VariantReading {
  import opened Wrappers

  /** VCFHeader.HEADER_INDICATOR: every header line starts with it, the `##`
      meta lines as well as the `#CHROM` column line (section 1 of the VCF
      v4.2 specification). */
  const HEADER_INDICATOR: string := "#"

  /** The start of the message TribbleException carries for a malformed line. */
  const MALFORMED_PREFIX: string := "The provided VCF file is malformed at approximately line number"

  /** A decoded record; its content is the codec's business. */
  datatype VariantContext = VariantContext(fields: seq<string>)

  /** A parsed header; its content is the codec's business. */
  datatype VcfHeader = VcfHeader(lines: seq<string>)

  /** What `codec.decode(line)` does: return a record, throw a
      TribbleException with a message, or throw anything else. */
  datatype DecodeOutcome =
    | Decoded(variant: VariantContext)
    | TribbleFailure(message: string)
    | OtherFailure(message: string)

  /** A registered BiConsumer, by identity. */
  datatype Handler = Handler(id: nat)

  /** The (line, error) pair a handler receives for a malformed line. */
  datatype MalformedLine = MalformedLine(line: string, message: string)

  /** The opened FileInputStream, by the file it reads. */
  datatype InputStream = InputStream(path: string, closed: bool)

  datatype ReadError =
    | IllegalCapacity(batchSize: int)
    | Rethrown(failure: DecodeOutcome)

  /** `close()` before any stream was assigned dereferences null. */
  datatype CloseError = NullInputStream

  predicate StartsWith(s: string, prefix: string)
  {
    prefix <= s
  }

  predicate IsHeaderLine(line: string)
  {
    StartsWith(line, HEADER_INDICATOR)
  }

  /** `line.trim().isEmpty()`: Java's trim removes every character up to and
      including the space, so a line trims to nothing exactly when it has no
      other character. */
  predicate IsBlank(line: string)
  {
    forall i :: 0 <= i < |line| ==> line[i] <= ' '
  }

  /** The lines `read` consumes without decoding. */
  predicate IsSkipped(line: string)
  {
    StartsWith(line, "#") || IsBlank(line)
  }

  /** The decode failures `read` recovers from. */
  predicate IsMalformed(o: DecodeOutcome)
  {
    o.TribbleFailure? && StartsWith(o.message, MALFORMED_PREFIX)
  }

  /** The lines `read` gets past without ending the batch: skipped, decoded
      or reported as malformed. */
  predicate Recoverable(line: string, decode: string -> DecodeOutcome)
  {
    IsSkipped(line) || decode(line).Decoded? || IsMalformed(decode(line))
  }

  /** The length of the maximal leading run of header lines. */
  function HeaderLength(lines: seq<string>): (h: nat)
    ensures h <= |lines|
    ensures forall i :: 0 <= i < h ==> IsHeaderLine(lines[i])
    ensures h < |lines| ==> !IsHeaderLine(lines[h])
  {
    if lines == [] || !IsHeaderLine(lines[0]) then 0
    else 1 + HeaderLength(lines[1..])
  }

  /** One turn of `open`'s header loop: moving a header line from the front of
      the remaining lines to the end of the collected ones keeps both the
      whole source and the header length. */
  lemma CollectHeaderLine(collected: seq<string>, rest: seq<string>)
    requires rest != [] && IsHeaderLine(rest[0])
    ensures (collected + [rest[0]]) + rest[1..] == collected + rest
    ensures HeaderLength(rest) == 1 + HeaderLength(rest[1..])
  {
    assert rest == [rest[0]] + rest[1..];
  }

  /** When `open`'s header loop stops, what it collected is the header. */
  lemma CollectedIsHeader(collected: seq<string>, rest: seq<string>, source: seq<string>)
    requires collected + rest == source
    requires rest == [] || !IsHeaderLine(rest[0])
    requires |collected| + HeaderLength(rest) == HeaderLength(source)
    ensures collected == source[..HeaderLength(source)]
  {
    assert source[..|collected|] == collected;
  }

  /** What one call of `read(batchSize)` does to a line source: the records it
      returns, the malformed lines it reports, how many lines it consumes, and
      the decode failure it rethrows, if any. */
  datatype Batch = Batch(records: seq<VariantContext>, malformed: seq<MalformedLine>, consumed: nat,
                         failure: Option<DecodeOutcome>)

  /** A batch that starts with `records` and `malformed` after `consumed` lines
      and then continues as `rest`. */
  function Prepend(records: seq<VariantContext>, malformed: seq<MalformedLine>, consumed: nat, rest: Batch): Batch
  {
    Batch(records + rest.records, malformed + rest.malformed, consumed + rest.consumed, rest.failure)
  }

  /** The batch `read(batchSize)` takes from `lines`. It holds at most
      `batchSize` records and stops short of that only when the lines run out
      or a decode failure other than a malformed line is rethrown, which
      happens right after the failing line is consumed. */
  function ReadBatch(lines: seq<string>, batchSize: nat, decode: string -> DecodeOutcome): (b: Batch)
    ensures b.consumed <= |lines|
    ensures |b.records| <= batchSize
    ensures b.failure.None? && |b.records| < batchSize ==> b.consumed == |lines|
    ensures b.failure.None? && 0 < batchSize == |b.records| ==>
      0 < b.consumed && !IsSkipped(lines[b.consumed - 1]) && decode(lines[b.consumed - 1]).Decoded?
    ensures batchSize == 0 ==> b.consumed == 0
    ensures b.failure.Some? ==>
      && |b.records| < batchSize
      && 0 < b.consumed && !IsSkipped(lines[b.consumed - 1])
      && decode(lines[b.consumed - 1]) == b.failure.value
      && !b.failure.value.Decoded? && !IsMalformed(b.failure.value)
    ensures forall k :: 0 <= k < |b.malformed| ==> IsMalformed(decode(b.malformed[k].line))
  {
    if lines == [] || batchSize == 0 then Batch([], [], 0, None)
    else
      var line := lines[0];
      if IsSkipped(line) then Prepend([], [], 1, ReadBatch(lines[1..], batchSize, decode))
      else
        var outcome := decode(line);
        if outcome.Decoded? then Prepend([outcome.variant], [], 1, ReadBatch(lines[1..], batchSize - 1, decode))
        else if IsMalformed(outcome) then
          Prepend([], [MalformedLine(line, outcome.message)], 1, ReadBatch(lines[1..], batchSize, decode))
        else Batch([], [], 1, Some(outcome))
  }

  /** One turn of `read`'s loop, in each of its four cases: when the batch of
      the whole source (`target`) is the part already read followed by the
      batch of the remaining lines, taking one more line keeps it so, or ends the batch
      with that line's failure. A skipped line: */
  lemma ReadStepSkipped(target: Batch, batchSize: nat, decode: string -> DecodeOutcome,
                        records: seq<VariantContext>, malformed: seq<MalformedLine>, consumed: nat, rest: seq<string>)
    requires rest != [] && |records| < batchSize && IsSkipped(rest[0])
    requires target
          == Prepend(records, malformed, consumed, ReadBatch(rest, batchSize - |records|, decode))
    ensures target
         == Prepend(records, malformed, consumed + 1, ReadBatch(rest[1..], batchSize - |records|, decode))
  {
    var tail := ReadBatch(rest[1..], batchSize - |records|, decode);
    assert records + ([] + tail.records) == records + tail.records;
    assert malformed + ([] + tail.malformed) == malformed + tail.malformed;
  }

  /** A line that decodes to a record: */
  lemma ReadStepDecoded(target: Batch, batchSize: nat, decode: string -> DecodeOutcome,
                        records: seq<VariantContext>, malformed: seq<MalformedLine>, consumed: nat, rest: seq<string>)
    requires rest != [] && |records| < batchSize && !IsSkipped(rest[0]) && decode(rest[0]).Decoded?
    requires target
          == Prepend(records, malformed, consumed, ReadBatch(rest, batchSize - |records|, decode))
    ensures var records' := records + [decode(rest[0]).variant];
      target
      == Prepend(records', malformed, consumed + 1, ReadBatch(rest[1..], batchSize - |records'|, decode))
  {
    var v := decode(rest[0]).variant;
    var tail := ReadBatch(rest[1..], batchSize - |records| - 1, decode);
    assert records + ([v] + tail.records) == (records + [v]) + tail.records;
    assert malformed + ([] + tail.malformed) == malformed + tail.malformed;
  }

  /** A malformed line: */
  lemma ReadStepMalformed(target: Batch, batchSize: nat, decode: string -> DecodeOutcome,
                          records: seq<VariantContext>, malformed: seq<MalformedLine>, consumed: nat, rest: seq<string>)
    requires rest != [] && |records| < batchSize && !IsSkipped(rest[0]) && IsMalformed(decode(rest[0]))
    requires target
          == Prepend(records, malformed, consumed, ReadBatch(rest, batchSize - |records|, decode))
    ensures target
         == Prepend(records, malformed + [MalformedLine(rest[0], decode(rest[0]).message)], consumed + 1,
                    ReadBatch(rest[1..], batchSize - |records|, decode))
  {
    var m := MalformedLine(rest[0], decode(rest[0]).message);
    var tail := ReadBatch(rest[1..], batchSize - |records|, decode);
    assert records + ([] + tail.records) == records + tail.records;
    assert malformed + ([m] + tail.malformed) == (malformed + [m]) + tail.malformed;
  }

  /** Any other failure, which ends the batch: */
  lemma ReadStepFailed(target: Batch, batchSize: nat, decode: string -> DecodeOutcome,
                       records: seq<VariantContext>, malformed: seq<MalformedLine>, consumed: nat, rest: seq<string>)
    requires rest != [] && |records| < batchSize && !IsSkipped(rest[0])
    requires !decode(rest[0]).Decoded? && !IsMalformed(decode(rest[0]))
    requires target
          == Prepend(records, malformed, consumed, ReadBatch(rest, batchSize - |records|, decode))
    ensures target == Batch(records, malformed, consumed + 1, Some(decode(rest[0])))
  {
    assert records + [] == records && malformed + [] == malformed;
  }

  /** When `read`'s loop stops without a failure, the batch is what it read. */
  lemma ReadDone(target: Batch, batchSize: nat, decode: string -> DecodeOutcome,
                 records: seq<VariantContext>, malformed: seq<MalformedLine>, consumed: nat, rest: seq<string>)
    requires |records| <= batchSize && (rest == [] || |records| == batchSize)
    requires target
          == Prepend(records, malformed, consumed, ReadBatch(rest, batchSize - |records|, decode))
    ensures target == Batch(records, malformed, consumed, None)
  {
    assert records + [] == records && malformed + [] == malformed;
  }

  /** The records the decodable lines of `lines` decode to, in line order. */
  function DecodedIn(lines: seq<string>, decode: string -> DecodeOutcome): seq<VariantContext>
  {
    if lines == [] then []
    else
      var outcome := decode(lines[0]);
      (if !IsSkipped(lines[0]) && outcome.Decoded? then [outcome.variant] else [])
      + DecodedIn(lines[1..], decode)
  }

  /** The malformed lines of `lines`, with their messages, in line order. */
  function MalformedIn(lines: seq<string>, decode: string -> DecodeOutcome): seq<MalformedLine>
  {
    if lines == [] then []
    else
      var outcome := decode(lines[0]);
      (if !IsSkipped(lines[0]) && IsMalformed(outcome) then [MalformedLine(lines[0], outcome.message)] else [])
      + MalformedIn(lines[1..], decode)
  }

  /** A batch's records are exactly the records the consumed lines decode to,
      in the order of their lines, and its reports are exactly the consumed
      malformed lines, in order. */
  lemma {:induction false} BatchFollowsLineOrder(lines: seq<string>, batchSize: nat, decode: string -> DecodeOutcome)
    ensures var b := ReadBatch(lines, batchSize, decode);
      && b.records == DecodedIn(lines[..b.consumed], decode)
      && b.malformed == MalformedIn(lines[..b.consumed], decode)
  {
    if lines == [] || batchSize == 0 {
      assert lines[..0] == [];
    } else if !Recoverable(lines[0], decode) {
      assert lines[..1] == [lines[0]] + [];
      LineOrderOfCons(lines[0], [], decode);
    } else {
      var size := if !IsSkipped(lines[0]) && decode(lines[0]).Decoded? then batchSize - 1 else batchSize;
      BatchFollowsLineOrder(lines[1..], size, decode);
      LineOrderStep(lines, batchSize, size, decode);
    }
  }

  /** The inductive step of BatchFollowsLineOrder: a line `read` gets past
      puts its own record or report in front of the batch of the lines after
      it. */
  lemma LineOrderStep(lines: seq<string>, batchSize: nat, size: nat, decode: string -> DecodeOutcome)
    requires lines != [] && batchSize > 0 && Recoverable(lines[0], decode)
    requires size == if !IsSkipped(lines[0]) && decode(lines[0]).Decoded? then batchSize - 1 else batchSize
    requires var t := ReadBatch(lines[1..], size, decode);
      && t.records == DecodedIn(lines[1..][..t.consumed], decode)
      && t.malformed == MalformedIn(lines[1..][..t.consumed], decode)
    ensures var b := ReadBatch(lines, batchSize, decode);
      && b.records == DecodedIn(lines[..b.consumed], decode)
      && b.malformed == MalformedIn(lines[..b.consumed], decode)
  {
    var tail := ReadBatch(lines[1..], size, decode);
    var taken := lines[1..][..tail.consumed];
    assert lines[..1 + tail.consumed] == [lines[0]] + taken;
    LineOrderOfCons(lines[0], taken, decode);
  }

  /** The records and reports of one more line in front. */
  lemma LineOrderOfCons(line: string, rest: seq<string>, decode: string -> DecodeOutcome)
    ensures DecodedIn([line] + rest, decode)
         == (if !IsSkipped(line) && decode(line).Decoded? then [decode(line).variant] else []) + DecodedIn(rest, decode)
    ensures MalformedIn([line] + rest, decode)
         == (if !IsSkipped(line) && IsMalformed(decode(line)) then [MalformedLine(line, decode(line).message)] else [])
            + MalformedIn(rest, decode)
  {
    assert ([line] + rest)[0] == line && ([line] + rest)[1..] == rest;
  }

  /** A batch ends at the first line whose decode failure is not a malformed
      line: every consumed line before the last was skipped, decoded or
      reported, and so was the last one unless the batch failed. */
  lemma {:induction false} BatchEndsAtFirstFailure(lines: seq<string>, batchSize: nat, decode: string -> DecodeOutcome)
    ensures var b := ReadBatch(lines, batchSize, decode);
      forall i :: 0 <= i < b.consumed - (if b.failure.Some? then 1 else 0) ==> Recoverable(lines[i], decode)
  {
    if lines != [] && batchSize != 0 {
      var line := lines[0];
      if IsSkipped(line) || IsMalformed(decode(line)) {
        BatchEndsAtFirstFailure(lines[1..], batchSize, decode);
      } else if decode(line).Decoded? {
        BatchEndsAtFirstFailure(lines[1..], batchSize - 1, decode);
      }
    }
  }

  /** A comment or blank line is consumed and nothing else: the batch is the
      one the following lines give, one line longer. */
  lemma SkippedLineDoesNotCount(line: string, lines: seq<string>, batchSize: nat, decode: string -> DecodeOutcome)
    requires IsSkipped(line) && batchSize > 0
    ensures ReadBatch([line] + lines, batchSize, decode) == Prepend([], [], 1, ReadBatch(lines, batchSize, decode))
  {
    assert ([line] + lines)[1..] == lines;
  }

  /** Reading the whole source gives the same batch as reading what `open`
      leaves after the header, offset by the header's length: the header
      lines are exactly the lines `read` would have skipped anyway. */
  lemma {:induction false} HeaderIsSkippedByRead(lines: seq<string>, batchSize: nat, decode: string -> DecodeOutcome)
    requires batchSize > 0
    ensures ReadBatch(lines, batchSize, decode)
         == Prepend([], [], HeaderLength(lines), ReadBatch(lines[HeaderLength(lines)..], batchSize, decode))
  {
    if HeaderLength(lines) > 0 {
      HeaderIsSkippedByRead(lines[1..], batchSize, decode);
      assert lines[1..][HeaderLength(lines[1..])..] == lines[HeaderLength(lines)..];
    }
  }

  /** Reporting one malformed line: every registered handler's inbox grows by
      that line; other inboxes stay as they are. */
  function Broadcast(inbox: map<Handler, seq<MalformedLine>>, handlers: set<Handler>, m: MalformedLine)
    : map<Handler, seq<MalformedLine>>
  {
    map h | h in inbox :: if h in handlers then inbox[h] + [m] else inbox[h]
  }

  /** Reporting several malformed lines, one after the other. */
  function BroadcastAll(inbox: map<Handler, seq<MalformedLine>>, handlers: set<Handler>, ms: seq<MalformedLine>)
    : (r: map<Handler, seq<MalformedLine>>)
    ensures r.Keys == inbox.Keys
    ensures forall h :: h in inbox && h !in handlers ==> r[h] == inbox[h]
    decreases |ms|
  {
    if ms == [] then inbox
    else Broadcast(BroadcastAll(inbox, handlers, ms[..|ms| - 1]), handlers, ms[|ms| - 1])
  }

  /** Reporting one more line after several is reporting them all. */
  lemma BroadcastAllSnoc(inbox: map<Handler, seq<MalformedLine>>, handlers: set<Handler>,
                         ms: seq<MalformedLine>, m: MalformedLine)
    ensures BroadcastAll(inbox, handlers, ms + [m]) == Broadcast(BroadcastAll(inbox, handlers, ms), handlers, m)
  {
    assert (ms + [m])[..|ms + [m]| - 1] == ms;
  }

  /** Every registered handler receives every reported line exactly once, in
      the order the lines were reported; no handler is added or dropped. */
  lemma {:induction false} EachHandlerReceivesEachLineOnce(inbox: map<Handler, seq<MalformedLine>>,
                                                           handlers: set<Handler>, ms: seq<MalformedLine>)
    ensures BroadcastAll(inbox, handlers, ms).Keys == inbox.Keys
    ensures forall h :: h in inbox ==>
      BroadcastAll(inbox, handlers, ms)[h] == inbox[h] + (if h in handlers then ms else [])
  {
    if ms != [] {
      EachHandlerReceivesEachLineOnce(inbox, handlers, ms[..|ms| - 1]);
      assert ms[..|ms| - 1] + [ms[|ms| - 1]] == ms;
    }
  }

  class VcfFileReader {
    const inputFilename: string
    var lazy: bool
    var malformHandlerSet: set<Handler>
    /** What each registered handler has been called with so far. */
    var delivered: map<Handler, seq<MalformedLine>>
    var inputStream: Option<InputStream>
    /** The lines of the source not consumed yet; None until `open` assigns it. */
    var lineIterator: Option<seq<string>>
    var headerLines: Option<seq<string>>
    var header: Option<VcfHeader>

    ghost predicate Valid()
      reads this
    {
      delivered.Keys == malformHandlerSet
    }

    constructor (inputFilename: string, lazy: bool)
      ensures Valid()
      ensures this.inputFilename == inputFilename && this.lazy == lazy
      ensures malformHandlerSet == {} && inputStream == None && lineIterator == None
      ensures headerLines == None && header == None
    {
      this.inputFilename := inputFilename;
      this.lazy := lazy;
      malformHandlerSet := {};
      delivered := map[];
      inputStream := None;
      lineIterator := None;
      headerLines := None;
      header := None;
    }

    /** `registerMalformatedVcfHandler`: add to the set (a second registration
        of the same handler changes nothing) and return this reader. */
    method RegisterMalformatedVcfHandler(handler: Handler) returns (self: VcfFileReader)
      requires Valid()
      modifies this`malformHandlerSet, this`delivered
      ensures Valid() && self == this
      ensures malformHandlerSet == old(malformHandlerSet) + {handler}
      ensures forall h :: h in old(delivered) ==> delivered[h] == old(delivered)[h]
      ensures handler !in old(delivered) ==> delivered[handler] == []
    {
      malformHandlerSet := malformHandlerSet + {handler};
      if handler !in delivered {
        delivered := delivered[handler := []];
      }
      self := this;
    }

    /** `open()`: open the file, collect the leading header lines (peeking at
        the first other line without consuming it) and parse them. Returns
        false when any step throws; what was assigned before the failing step
        stays assigned. */
    method Open(files: map<string, seq<string>>, readActualHeader: seq<string> -> Option<VcfHeader>)
      returns (ok: bool)
      modifies this`inputStream, this`lineIterator, this`headerLines, this`header
      ensures inputFilename !in files ==> !ok && inputStream == old(inputStream) && lineIterator == old(lineIterator)
                                          && headerLines == old(headerLines) && header == old(header)
      ensures inputFilename in files ==>
        var lines := files[inputFilename];
        var h := HeaderLength(lines);
        && inputStream == Some(InputStream(inputFilename, false))
        && headerLines == Some(lines[..h])
        && lineIterator == Some(lines[h..])
        && ok == readActualHeader(lines[..h]).Some?
        && header == if ok then readActualHeader(lines[..h]) else old(header)
    {
      if inputFilename !in files {
        return false;
      }
      inputStream := Some(InputStream(inputFilename, false));
      var source := files[inputFilename];
      lineIterator := Some(source);
      var collected: seq<string> := [];
      while lineIterator.value != []
        invariant lineIterator.Some? && collected + lineIterator.value == source
        invariant inputStream == Some(InputStream(inputFilename, false))
        invariant header == old(header)
        invariant HeaderLength(source) == |collected| + HeaderLength(lineIterator.value)
        decreases |lineIterator.value|
      {
        var line := lineIterator.value[0];
        if IsHeaderLine(line) {
          CollectHeaderLine(collected, lineIterator.value);
          collected := collected + [line];
          lineIterator := Some(lineIterator.value[1..]);
        } else {
          break;
        }
      }
      CollectedIsHeader(collected, lineIterator.value, source);
      headerLines := Some(collected);
      var parsed := readActualHeader(collected);
      if parsed.None? {
        return false;
      }
      header := parsed;
      ok := true;
    }

    /** `logMalformatedLine`: call every registered handler with the line and
        its error, in whatever order the set yields them. */
    method LogMalformatedLine(line: string, message: string)
      requires Valid()
      modifies this`delivered
      ensures Valid()
      ensures delivered == Broadcast(old(delivered), malformHandlerSet, MalformedLine(line, message))
      ensures delivered.Keys == old(delivered).Keys
      ensures forall h :: h in old(delivered) ==>
        delivered[h] == old(delivered)[h] + (if h in malformHandlerSet then [MalformedLine(line, message)] else [])
    {
      var m := MalformedLine(line, message);
      var remaining := malformHandlerSet;
      while remaining != {}
        invariant remaining <= malformHandlerSet
        invariant delivered.Keys == malformHandlerSet
        invariant forall h :: h in delivered ==>
          delivered[h] == if h in malformHandlerSet && h !in remaining then old(delivered)[h] + [m] else old(delivered)[h]
        decreases remaining
      {
        var consumer :| consumer in remaining;
        delivered := delivered[consumer := delivered[consumer] + [m]];
        remaining := remaining - {consumer};
      }
    }

    /** Reporting one more malformed line during `read`: the inboxes go on
        holding every line reported so far. */
    method ReportMalformed(line: string, message: string, ghost inbox: map<Handler, seq<MalformedLine>>,
                           ghost malformed: seq<MalformedLine>)
      requires Valid() && delivered == BroadcastAll(inbox, malformHandlerSet, malformed)
      modifies this`delivered
      ensures Valid() && delivered == BroadcastAll(inbox, malformHandlerSet, malformed + [MalformedLine(line, message)])
    {
      BroadcastAllSnoc(inbox, malformHandlerSet, malformed, MalformedLine(line, message));
      LogMalformatedLine(line, message);
    }

    /** One turn of `read`'s loop: consume the next line, then skip it, add
        its record, report it to the handlers, or fail with its exception.
        `records`, `malformed` and `consumed` are what the batch has taken
        from `lines` so far, and `inbox` the handlers' state before it began. */
    method ReadLine(ghost target: Batch, batchSize: nat, decode: string -> DecodeOutcome,
                    records: seq<VariantContext>, ghost malformed: seq<MalformedLine>, ghost consumed: nat,
                    ghost inbox: map<Handler, seq<MalformedLine>>)
      returns (records': seq<VariantContext>, ghost malformed': seq<MalformedLine>, failure: Option<DecodeOutcome>)
      requires Valid() && lineIterator.Some? && lineIterator.value != [] && |records| < batchSize
      requires target
            == Prepend(records, malformed, consumed, ReadBatch(lineIterator.value, batchSize - |records|, decode))
      requires delivered == BroadcastAll(inbox, malformHandlerSet, malformed)
      modifies this`lineIterator, this`delivered
      ensures Valid() && lineIterator.Some? && lineIterator.value == old(lineIterator.value)[1..]
      ensures |records'| <= batchSize
      ensures failure.None? ==>
        && target
           == Prepend(records', malformed', consumed + 1, ReadBatch(lineIterator.value, batchSize - |records'|, decode))
        && delivered == BroadcastAll(inbox, malformHandlerSet, malformed')
      ensures failure.Some? ==>
        && target == Batch(records, malformed, consumed + 1, failure)
        && delivered == BroadcastAll(inbox, malformHandlerSet, malformed)
    {
      ghost var rest := lineIterator.value;
      var line := lineIterator.value[0];
      lineIterator := Some(lineIterator.value[1..]);
      records', malformed', failure := records, malformed, None;
      if StartsWith(line, "#") || IsBlank(line) {
        ReadStepSkipped(target, batchSize, decode, records, malformed, consumed, rest);
        return;
      }
      var outcome := decode(line);
      if outcome.Decoded? {
        ReadStepDecoded(target, batchSize, decode, records, malformed, consumed, rest);
        records' := records + [outcome.variant];
      } else if IsMalformed(outcome) {
        ReadStepMalformed(target, batchSize, decode, records, malformed, consumed, rest);
        ReportMalformed(line, outcome.message, inbox, malformed);
        malformed' := malformed + [MalformedLine(line, outcome.message)];
      } else {
        ReadStepFailed(target, batchSize, decode, records, malformed, consumed, rest);
        failure := Some(outcome);
      }
    }

    /** `read(batchSize)`: the next batch of records, as ReadBatch describes it.
        A negative size fails when the result list is allocated, before any
        line is consumed. */
    method Read(batchSize: int, decode: string -> DecodeOutcome) returns (r: Result<seq<VariantContext>, ReadError>)
      requires Valid() && lineIterator.Some?
      modifies this`lineIterator, this`delivered
      ensures Valid() && lineIterator.Some?
      ensures batchSize < 0 ==> r == Err(IllegalCapacity(batchSize)) && lineIterator == old(lineIterator)
                                && delivered == old(delivered)
      ensures batchSize >= 0 ==>
        var b := ReadBatch(old(lineIterator.value), batchSize, decode);
        && lineIterator.value == old(lineIterator.value)[b.consumed..]
        && delivered == BroadcastAll(old(delivered), malformHandlerSet, b.malformed)
        && r == if b.failure.Some? then Err(Rethrown(b.failure.value)) else Ok(b.records)
    {
      if batchSize < 0 {
        return Err(IllegalCapacity(batchSize));
      }
      ghost var lines := lineIterator.value;
      ghost var target := ReadBatch(lines, batchSize, decode);
      ghost var consumed := 0;
      ghost var malformed: seq<MalformedLine> := [];
      var variantContexts: seq<VariantContext> := [];
      while lineIterator.value != [] && |variantContexts| < batchSize
        invariant lineIterator.Some? && consumed <= |lines| && lineIterator.value == lines[consumed..]
        invariant |variantContexts| <= batchSize
        invariant target
               == Prepend(variantContexts, malformed, consumed,
                          ReadBatch(lineIterator.value, batchSize - |variantContexts|, decode))
        invariant Valid()
        invariant delivered == BroadcastAll(old(delivered), malformHandlerSet, malformed)
        decreases |lineIterator.value|
      {
        var failure;
        ghost var rest := lineIterator.value;
        variantContexts, malformed, failure :=
          ReadLine(target, batchSize, decode, variantContexts, malformed, consumed,
                   old(delivered));
        consumed := consumed + 1;
        assert rest[1..] == lines[consumed..];
        if failure.Some? {
          return Err(Rethrown(failure.value));
        }
      }
      ReadDone(target, batchSize, decode, variantContexts, malformed, consumed, lineIterator.value);
      r := Ok(variantContexts);
    }

    /** `close()`: close the stream `open` assigned. */
    method Close() returns (r: Result<bool, CloseError>)
      modifies this`inputStream
      ensures old(inputStream).None? ==> r == Err(NullInputStream) && inputStream == None
      ensures old(inputStream).Some? ==> r == Ok(true) && inputStream == Some(old(inputStream).value.(closed := true))
    {
      if inputStream.None? {
        return Err(NullInputStream);
      }
      inputStream := Some(inputStream.value.(closed := true));
      r := Ok(true);
    }

    /** `getVcfHeader()`: the parsed header, opening and closing the file only
        when no header has been parsed yet. */
    method GetVcfHeader(files: map<string, seq<string>>, readActualHeader: seq<string> -> Option<VcfHeader>)
      returns (r: Result<Option<VcfHeader>, CloseError>)
      modifies this`inputStream, this`lineIterator, this`headerLines, this`header
      ensures old(header).Some? ==> r == Ok(old(header)) && header == old(header) && inputStream == old(inputStream)
                                    && lineIterator == old(lineIterator) && headerLines == old(headerLines)
      ensures old(header).None? && inputFilename in files ==>
        var lines := files[inputFilename];
        var h := HeaderLength(lines);
        && r == Ok(readActualHeader(lines[..h]))
        && header == readActualHeader(lines[..h])
        && inputStream == Some(InputStream(inputFilename, true))
        && headerLines == Some(lines[..h])
        && lineIterator == Some(lines[h..])
      ensures old(header).None? && inputFilename !in files ==>
        && r == (if old(inputStream).None? then Err(NullInputStream) else Ok(None))
        && header == None
        && inputStream == (if old(inputStream).None? then None else Some(old(inputStream).value.(closed := true)))
        && lineIterator == old(lineIterator) && headerLines == old(headerLines)
    {
      if header.None? {
        var _ := Open(files, readActualHeader);
        var closed := Close();
        if closed.Err? {
          return Err(closed.error);
        }
      }
      r := Ok(header);
    }
  }
}
