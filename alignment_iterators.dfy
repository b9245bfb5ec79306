/** The alignment iterators the access façade builds: a raw SAM record source
    (htsjdk's SAMRecordIterator, here a finite sequence), a conjunction of
    filters, a record limit, and one of three output conversions. */
module AlignmentIterators {

  /** A SAM record as the façade sees it. Only the unmapped flag is ever read
      by the façade; everything else the record holds is carried opaquely. */
  datatype SamRecord = SamRecord(readName: string, readUnmappedFlag: bool, payload: seq<int>)

  /** The result of converting a SAM record to a GA4GH ReadAlignment (the Avro
      or the protobuf class). The conversion itself is library code; the model
      keeps the record it came from and whether qualities were binned. */
  datatype ReadAlignment = ReadAlignment(source: SamRecord, binnedQualities: bool)

  /** One element of a `BamIterator<T>`, tagged by the output class `T`. */
  datatype Alignment =
    | Native(record: SamRecord)
    | Avro(avro: ReadAlignment)
    | Proto(proto: ReadAlignment)

  /** The three iterator classes: SamRecordBamIterator,
      SAMRecordToAvroReadAlignmentBamIterator and
      SAMRecordToProtoReadAlignmentBamIterator. */
  datatype IteratorVariant =
    | SamRecordIterator
    | AvroIterator(binQualities: bool)
    | ProtoIterator(binQualities: bool)

  /** One predicate of an AlignmentFilters set. */
  type Filter = SamRecord -> bool

  /** A record passes a filter set when every predicate accepts it; a null
      filter set is the empty one. */
  predicate Accepts(filters: seq<Filter>, r: SamRecord)
  {
    forall i :: 0 <= i < |filters| ==> filters[i](r)
  }

  /** The records of `raw` that pass `filters`, in their original order. */
  function Accepted(filters: seq<Filter>, raw: seq<SamRecord>): (acc: seq<SamRecord>)
    ensures |acc| <= |raw|
    ensures forall k :: 0 <= k < |acc| ==> Accepts(filters, acc[k]) && acc[k] in raw
    ensures forall r :: r in raw && Accepts(filters, r) ==> r in acc
  {
    if raw == [] then []
    else if Accepts(filters, raw[0]) then [raw[0]] + Accepted(filters, raw[1..])
    else Accepted(filters, raw[1..])
  }

  /** The conversion each iterator variant applies to an accepted record. */
  function Encode(v: IteratorVariant, r: SamRecord): Alignment
  {
    match v
    case SamRecordIterator => Native(r)
    case AvroIterator(b) => Avro(ReadAlignment(r, b))
    case ProtoIterator(b) => Proto(ReadAlignment(r, b))
  }

  /** An output `a` is of the form the iterator variant `v` produces: native
      records for the SAMRecord iterator, Avro or protobuf alignments binned
      as the variant says for the other two. */
  predicate Produces(v: IteratorVariant, a: Alignment)
  {
    match v
    case SamRecordIterator => a.Native?
    case AvroIterator(b) => a.Avro? && a.avro.binnedQualities == b
    case ProtoIterator(b) => a.Proto? && a.proto.binnedQualities == b
  }

  /** The conversion applied record by record as the iterator is pulled. */
  function EncodeAll(v: IteratorVariant, rs: seq<SamRecord>): (out: seq<Alignment>)
    ensures |out| == |rs|
    ensures Records(out) == rs
    ensures forall k :: 0 <= k < |out| ==> Produces(v, out[k])
  {
    if rs == [] then []
    else
      var tail := EncodeAll(v, rs[1..]);
      assert ([Encode(v, rs[0])] + tail)[1..] == tail;
      [Encode(v, rs[0])] + tail
  }

  /** The SAM record an output element was converted from. */
  function RecordOf(a: Alignment): SamRecord
  {
    match a
    case Native(r) => r
    case Avro(ra) => ra.source
    case Proto(ra) => ra.source
  }

  /** The records behind a sequence of outputs, in order. */
  function Records(outs: seq<Alignment>): (rs: seq<SamRecord>)
    ensures |rs| == |outs|
    ensures forall k :: 0 <= k < |outs| ==> rs[k] == RecordOf(outs[k])
  {
    if outs == [] then [] else [RecordOf(outs[0])] + Records(outs[1..])
  }

  /** A positive limit truncates; any other limit (the façade passes -1) leaves
      the sequence whole. */
  function Limit<T>(s: seq<T>, limit: int): (r: seq<T>)
    ensures r <= s
    ensures limit > 0 ==> |r| == if |s| < limit then |s| else limit
    ensures limit <= 0 ==> r == s
  {
    if 0 < limit < |s| then s[..limit] else s
  }

  /** Everything an iterator over `raw` yields, in order: the accepted records,
      converted, cut at the limit. */
  function Outputs(raw: seq<SamRecord>, filters: seq<Filter>, v: IteratorVariant, limit: int): (out: seq<Alignment>)
    ensures Records(out) == Limit(Accepted(filters, raw), limit)
    ensures forall k :: 0 <= k < |out| ==> Produces(v, out[k])
  {
    var encoded := EncodeAll(v, Accepted(filters, raw));
    var out := Limit(encoded, limit);
    RecordsOfPrefix(encoded, |out|);
    out
  }

  /** The records of `rs` whose unmapped flag is false, in their original order. */
  function Mapped(rs: seq<SamRecord>): (m: seq<SamRecord>)
    ensures |m| <= |rs|
    ensures forall k :: 0 <= k < |m| ==> !m[k].readUnmappedFlag
  {
    if rs == [] then []
    else if rs[0].readUnmappedFlag then Mapped(rs[1..])
    else [rs[0]] + Mapped(rs[1..])
  }

  /** The mapped records are records of the source, and every mapped record
      of the source is among them. */
  lemma {:induction false} MappedMembers(rs: seq<SamRecord>)
    ensures forall r :: r in Mapped(rs) <==> r in rs && !r.readUnmappedFlag
  {
    if rs != [] {
      MappedMembers(rs[1..]);
      assert forall r :: r in rs <==> r == rs[0] || r in rs[1..];
    }
  }

  /** Feeding records one by one, in order, to an accumulator update. */
  function Feed<C>(update: (C, SamRecord) -> C, c: C, rs: seq<SamRecord>): C
  {
    if rs == [] then c else Feed(update, update(c, rs[0]), rs[1..])
  }

  /** The records behind a prefix of the outputs are the same prefix of the
      records behind them all. */
  lemma RecordsOfPrefix(outs: seq<Alignment>, n: nat)
    requires n <= |outs|
    ensures Records(outs[..n]) == Records(outs)[..n]
  {
  }

  /** The outputs of the native iterator are the accepted records themselves. */
  lemma NativeOutputs(raw: seq<SamRecord>, filters: seq<Filter>, limit: int)
    ensures forall k :: 0 <= k < |Outputs(raw, filters, SamRecordIterator, limit)| ==>
      Outputs(raw, filters, SamRecordIterator, limit)[k].Native?
    ensures Records(Outputs(raw, filters, SamRecordIterator, limit)) == Limit(Accepted(filters, raw), limit)
  {
  }

  /** Filtering distributes over concatenation: the accepted records of a
      longer source extend those of its prefix, in source order. */
  lemma {:induction false} AcceptedOfConcat(filters: seq<Filter>, a: seq<SamRecord>, b: seq<SamRecord>)
    ensures Accepted(filters, a + b) == Accepted(filters, a) + Accepted(filters, b)
  {
    if a != [] {
      assert (a + b)[1..] == a[1..] + b;
      AcceptedOfConcat(filters, a[1..], b);
      if Accepts(filters, a[0]) {
        calc {
          Accepted(filters, a + b);
          [a[0]] + (Accepted(filters, a[1..]) + Accepted(filters, b));
          ([a[0]] + Accepted(filters, a[1..])) + Accepted(filters, b);
        }
      }
    } else {
      assert a + b == b;
    }
  }

  /** The mapped records of a concatenation are those of each part, in order:
      dropping unmapped records never reorders the mapped ones. */
  lemma {:induction false} MappedOfConcat(a: seq<SamRecord>, b: seq<SamRecord>)
    ensures Mapped(a + b) == Mapped(a) + Mapped(b)
  {
    if a != [] {
      assert (a + b)[1..] == a[1..] + b;
      MappedOfConcat(a[1..], b);
      if !a[0].readUnmappedFlag {
        calc {
          Mapped(a + b);
          [a[0]] + (Mapped(a[1..]) + Mapped(b));
          ([a[0]] + Mapped(a[1..])) + Mapped(b);
        }
      }
    } else {
      assert a + b == b;
    }
  }

  /** Feeding two runs of records one after the other is feeding their
      concatenation: an accumulator interrupted after a prefix holds exactly
      the contribution of that prefix. */
  lemma {:induction false} FeedOfConcat<C>(update: (C, SamRecord) -> C, c: C, a: seq<SamRecord>, b: seq<SamRecord>)
    ensures Feed(update, c, a + b) == Feed(update, Feed(update, c, a), b)
  {
    if a != [] {
      assert (a + b)[1..] == a[1..] + b;
      FeedOfConcat(update, update(c, a[0]), a[1..], b);
    } else {
      assert a + b == b;
    }
  }

  /** Applying a second limit no larger than the first is applying it alone. */
  lemma LimitOfLimit<T>(s: seq<T>, limit: int, cap: nat)
    requires 0 < cap
    requires limit <= 0 || cap <= limit
    ensures Limit(Limit(s, limit), cap) == Limit(s, cap)
  {
  }

  /** A lazy, forward-only iterator. The model computes the outputs it will
      yield when it is built; `pending` holds those not yet returned. */
  class BamIterator {
    var pending: seq<Alignment>
    var closed: bool

    constructor (raw: seq<SamRecord>, filters: seq<Filter>, v: IteratorVariant, limit: int)
      ensures pending == Outputs(raw, filters, v, limit) && !closed
    {
      pending := Outputs(raw, filters, v, limit);
      closed := false;
    }

    predicate HasNext()
      reads this
    {
      pending != []
    }

    method Next() returns (a: Alignment)
      requires HasNext()
      modifies this`pending
      ensures a == old(pending)[0] && pending == old(pending)[1..]
    {
      a := pending[0];
      pending := pending[1..];
    }

    method Close()
      modifies this`closed
      ensures closed
    {
      closed := true;
    }
  }
}
