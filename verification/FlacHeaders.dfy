/**
 Frame headers from the writing side: the fields of section 9.1 of RFC 9639 with their meaning, and the bytes
 they are written as. What the scan takes for a header is exactly what can be written so.
 */
module FlacHeaders {
  import opened Common
  import opened Flac

  /** The codes and fields of a header. The coded number is the bits in its first byte, then six to a byte. */
  datatype Header = Header(
    variable: bool,
    sizeCode: nat,
    sizeField: nat,
    rateCode: nat,
    rateField: nat,
    channels: nat,
    sampleCode: nat,
    lead: nat,
    groups: seq<nat>)

  function FieldLimit(width: nat): nat { if width == 0 then 1 else if width == 1 then 256 else 65536 }

  function SizeWidth(h: Header): nat {
    match h.sizeCode
    case 6 => 1
    case 7 => 2
    case _ => 0
  }

  function RateWidth(h: Header): nat {
    match h.rateCode
    case 12 => 1
    case 13 => 2
    case 14 => 2
    case _ => 0
  }

  /** The first byte of a number holds ones for its length, a zero, and what is left for the number. */
  function LeadPrefix(more: nat): nat
    requires more <= 5
  {
    [0, 0xC0, 0xE0, 0xF0, 0xF8, 0xFC][more]
  }

  function LeadLimit(more: nat): nat
    requires more <= 5
  {
    [128, 32, 16, 8, 4, 2][more]
  }

  /** No reserved or forbidden code, and no number of more than 31 bits, whose seven bytes the scan does not take. */
  predicate Writable(h: Header) {
    && 1 <= h.sizeCode <= 15 && h.rateCode <= 14 && h.channels <= 10 && h.sampleCode <= 7 && h.sampleCode != 3
    && h.sizeField < FieldLimit(SizeWidth(h)) && h.rateField < FieldLimit(RateWidth(h))
    && |h.groups| <= 5 && h.lead < LeadLimit(|h.groups|)
    && (forall i :: 0 <= i < |h.groups| ==> h.groups[i] < 64)
  }

  /** How many samples each channel of the frame has. */
  function BlockSizeOf(h: Header): nat {
    match h.sizeCode
    case 1 => 192
    case 2 => 576
    case 3 => 1152
    case 4 => 2304
    case 5 => 4608
    case 6 => h.sizeField + 1
    case 7 => h.sizeField + 1
    case 8 => 256
    case 9 => 512
    case 10 => 1024
    case 11 => 2048
    case 12 => 4096
    case 13 => 8192
    case 14 => 16384
    case _ => 32768
  }

  /** The bits of a sample; the stream's own when the header does not say. */
  function SampleBits(h: Header, streamBits: int): int {
    match h.sampleCode
    case 1 => 8
    case 2 => 12
    case 4 => 16
    case 5 => 20
    case 6 => 24
    case 7 => 32
    case _ => streamBits
  }

  function Field(value: nat, width: nat): seq<Byte>
    requires width <= 2 && value < FieldLimit(width)
  {
    if width == 0 then [] else if width == 1 then [value] else [value / 256, value % 256]
  }

  function Fixed(h: Header): seq<Byte>
    requires Writable(h)
  {
    [0xFF, if h.variable then 0xF9 else 0xF8, h.sizeCode * 16 + h.rateCode, h.channels * 16 + h.sampleCode * 2,
     LeadPrefix(|h.groups|) + h.lead]
  }

  function Groups(h: Header): seq<Byte>
    requires Writable(h)
  {
    seq(|h.groups|, i requires 0 <= i < |h.groups| => 0x80 + h.groups[i])
  }

  function Fields(h: Header): seq<Byte>
    requires Writable(h)
  {
    Fixed(h) + Groups(h) + Field(h.sizeField, SizeWidth(h)) + Field(h.rateField, RateWidth(h))
  }

  /** The fields, then the byte that makes the whole divisible. */
  function Written(h: Header): seq<Byte>
    requires Writable(h)
  {
    Fields(h) + [CrcByte(h)]
  }

  function CrcByte(h: Header): Byte
    requires Writable(h)
  {
    EightBits();
    Value(Crc(AllBits(Fields(h))))
  }

  /** The data holds the header at an offset. */
  predicate HoldsAt(data: seq<Byte>, pos: nat, h: Header) {
    && Writable(h) && pos + |Written(h)| <= |data|
    && data[pos..pos + |Written(h)|] == Written(h)
  }

  predicate Acceptable(h: Header, maxBlocksize: int, bitsPerSample: int) {
    BlockSizeOf(h) <= maxBlocksize && SampleBits(h, bitsPerSample) == bitsPerSample
  }

  // ---------------------------------------------------------------- what is written is a header

  lemma PartAt(data: seq<Byte>, pos: nat, before: seq<Byte>, part: seq<Byte>, behind: seq<Byte>)
    requires pos + |before| + |part| + |behind| <= |data|
    requires data[pos..pos + |before| + |part| + |behind|] == before + part + behind
    ensures data[pos..pos + |before|] == before && data[pos + |before|..pos + |before| + |part|] == part
  {
    var whole, i := before + part + behind, pos + |before|;
    assert data[pos..i] == whole[..|before|];
    forall k | 0 <= k < |part| ensures data[i..i + |part|][k] == part[k] {
      assert data[pos..pos + |whole|][|before| + k] == whole[|before| + k];
    }
  }

  lemma PartsAt(data: seq<Byte>, pos: nat, a: seq<Byte>, b: seq<Byte>, c: seq<Byte>, d: seq<Byte>)
    requires pos + |a + b + c + d| <= |data| && data[pos..pos + |a + b + c + d|] == a + b + c + d
    ensures var i := pos + |a|;
      && data[pos..i] == a && data[i..i + |b|] == b
      && data[i + |b|..i + |b| + |c|] == c
  {
    var i := pos + |a|;
    assert a + b + c + d == a + (b + c + d) + [];
    PartAt(data, pos, a, b + c + d, []);
    assert b + c + d == b + (c + d) + [];
    PartAt(data, i, b, c + d, []);
    assert c + d == [] + c + d;
    PartAt(data, i + |b|, [], c, d);
  }

  /** Where the parts of a written header stand. */
  lemma Layout(data: seq<Byte>, pos: nat, h: Header)
    requires HoldsAt(data, pos, h)
    ensures
      var sizeAt := pos + 5 + |h.groups|;
      var rateAt := sizeAt + SizeWidth(h);
      var end := rateAt + RateWidth(h);
      && end + 1 == pos + |Written(h)|
      && data[pos..pos + 5] == Fixed(h) && data[pos + 5..sizeAt] == Groups(h)
      && data[sizeAt..rateAt] == Field(h.sizeField, SizeWidth(h))
      && data[pos..end] == Fields(h) && data[end] == CrcByte(h)
  {
    assert Written(h) == Fields(h) + [CrcByte(h)] + [];
    PartAt(data, pos, Fields(h), [CrcByte(h)], []);
    PartsAt(data, pos, Fixed(h), Groups(h), Field(h.sizeField, SizeWidth(h)), Field(h.rateField, RateWidth(h)));
  }

  lemma BlockSizes(data: seq<Byte>, h: Header, i: nat)
    requires Writable(h) && i + SizeWidth(h) <= |data|
    requires data[i..i + SizeWidth(h)] == Field(h.sizeField, SizeWidth(h))
    ensures BlockSize(data, h.sizeCode, i) == BlockSizeOf(h)
  {
    assert Power(3) == 8 && Power(7) == 128;
    if h.sizeCode == 6 {
      assert data[i] == data[i..i + 1][0];
    } else if h.sizeCode == 7 {
      assert data[i] == data[i..i + 2][0] && data[i + 1] == data[i..i + 2][1];
    }
  }

  lemma LeadLength(more: nat, lead: nat)
    requires more <= 5 && lead < LeadLimit(more)
    ensures NumberLength(LeadPrefix(more) + lead) == 1 + more
    ensures !Continuation(LeadPrefix(more) + lead) && LeadPrefix(more) + lead < 0xFE
  {
  }

  lemma CodesApart(high: nat, low: nat)
    requires low < 16
    ensures (high * 16 + low) / 16 == high && (high * 16 + low) % 16 == low
  {
  }

  lemma SyncOfFixed(data: seq<Byte>, pos: nat, h: Header)
    requires Writable(h) && pos + 4 < |data| && data[pos..pos + 5] == Fixed(h)
    ensures Sync(data, pos)
    ensures data[pos + 2] / 16 == h.sizeCode && data[pos + 2] % 16 == h.rateCode
    ensures SampleSizeCode(data, pos) == h.sampleCode
    ensures NumberEnd(data, pos) == pos + 5 + |h.groups|
  {
    var fixed := data[pos..pos + 5];
    assert data[pos] == fixed[0] && data[pos + 1] == fixed[1] && data[pos + 2] == fixed[2];
    assert data[pos + 3] == fixed[3] && data[pos + 4] == fixed[4];
    CodesApart(h.sizeCode, h.rateCode);
    CodesApart(h.channels, h.sampleCode * 2);
    LeadLength(|h.groups|, h.lead);
  }

  lemma GroupsContinue(data: seq<Byte>, pos: nat, h: Header)
    requires Writable(h) && pos + |h.groups| <= |data| && data[pos..pos + |h.groups|] == Groups(h)
    ensures forall k :: pos <= k < pos + |h.groups| ==> Continuation(data[k])
  {
    forall k | pos <= k < pos + |h.groups| ensures Continuation(data[k]) {
      assert data[k] == Groups(h)[k - pos];
    }
  }

  lemma WrittenCrc(h: Header, crc: Byte)
    requires Writable(h)
    ensures crc == CrcByte(h) <==> Remainder(AllBits(Fields(h) + [crc])) == Zeros(8)
  {
    EightBits();
    BitsOfValue(Crc(AllBits(Fields(h))));
    HeaderCrc(Fields(h), crc, CrcByte(h));
  }

  lemma HeaderFields(data: seq<Byte>, pos: nat, h: Header)
    requires HoldsAt(data, pos, h)
    ensures Sync(data, pos) && NumberContinues(data, pos) && CrcPosition(data, pos) == pos + |Fields(h)|
    ensures BlockSize(data, data[pos + 2] / 16, NumberEnd(data, pos)) == BlockSizeOf(h)
    ensures SampleSizeCode(data, pos) == h.sampleCode
  {
    Layout(data, pos, h);
    SyncOfFixed(data, pos, h);
    GroupsContinue(data, pos + 5, h);
    BlockSizes(data, h, pos + 5 + |h.groups|);
  }

  lemma SampleSizes(h: Header, bitsPerSample: int)
    requires Writable(h)
    ensures SampleSize(h.sampleCode) == 0 || SampleSize(h.sampleCode) == bitsPerSample
      <==> SampleBits(h, bitsPerSample) == bitsPerSample
  {
  }

  lemma WrittenIsHeader(data: seq<Byte>, pos: nat, h: Header, maxBlocksize: int, bitsPerSample: int)
    requires HoldsAt(data, pos, h)
    ensures IsHeader(data, pos, maxBlocksize, bitsPerSample) <==> Acceptable(h, maxBlocksize, bitsPerSample)
    ensures Sync(data, pos) && BlockSize(data, data[pos + 2] / 16, NumberEnd(data, pos)) == BlockSizeOf(h)
  {
    HeaderFields(data, pos, h);
    SampleSizes(h, bitsPerSample);
    assert data[pos..pos + |Fields(h)| + 1] == Fields(h) + [CrcByte(h)];
    WrittenCrc(h, CrcByte(h));
  }

  // ---------------------------------------------------------------- and a header is what is written

  /** The header the bytes at an offset stand for. */
  function HeaderAt(data: seq<Byte>, pos: nat): Header
    requires Sync(data, pos) && NumberContinues(data, pos) && CrcPosition(data, pos) < |data|
  {
    var sizeCode, rateCode, more := data[pos + 2] / 16, data[pos + 2] % 16, NumberLength(data[pos + 4]) - 1;
    var sizeAt := pos + 5 + more;
    var rateAt := sizeAt + SizeFieldWidth(sizeCode);
    Header(data[pos + 1] == 0xF9,
      sizeCode, BigEndian(data, sizeAt, SizeFieldWidth(sizeCode)),
      rateCode, BigEndian(data, rateAt, RateFieldWidth(rateCode)),
      data[pos + 3] / 16, data[pos + 3] / 2 % 8,
      data[pos + 4] - LeadPrefix(more),
      seq(more, i requires 0 <= i < more => data[pos + 5 + i] - 0x80))
  }

  lemma FieldRead(data: seq<Byte>, i: nat, width: nat)
    requires width <= 2 && i + width <= |data|
    ensures 0 <= BigEndian(data, i, width) < FieldLimit(width)
    ensures Field(BigEndian(data, i, width), width) == data[i..i + width]
  {
  }

  lemma LeadRead(first: Byte)
    requires !Continuation(first) && first < 0xFE
    ensures var more := NumberLength(first) - 1;
      0 <= more <= 5 && 0 <= first - LeadPrefix(more) < LeadLimit(more)
  {
  }

  lemma HeaderAtWritable(data: seq<Byte>, pos: nat)
    requires Sync(data, pos) && NumberContinues(data, pos) && CrcPosition(data, pos) < |data|
    ensures var h := HeaderAt(data, pos);
      && Writable(h) && Fixed(h) == data[pos..pos + 5] && Groups(h) == data[pos + 5..NumberEnd(data, pos)]
      && SizeWidth(h) == SizeFieldWidth(h.sizeCode) && RateWidth(h) == RateFieldWidth(h.rateCode)
  {
    var h := HeaderAt(data, pos);
    LeadRead(data[pos + 4]);
    FieldRead(data, NumberEnd(data, pos), SizeWidth(h));
    FieldRead(data, NumberEnd(data, pos) + SizeWidth(h), RateWidth(h));
  }

  lemma FieldsAt(data: seq<Byte>, pos: nat)
    requires Sync(data, pos) && NumberContinues(data, pos) && CrcPosition(data, pos) < |data|
    ensures var h := HeaderAt(data, pos);
      Writable(h) && Fields(h) == data[pos..CrcPosition(data, pos)]
  {
    var h, sizeAt, end := HeaderAt(data, pos), NumberEnd(data, pos), CrcPosition(data, pos);
    HeaderAtWritable(data, pos);
    var rateAt := sizeAt + SizeWidth(h);
    FieldRead(data, sizeAt, SizeWidth(h));
    FieldRead(data, rateAt, RateWidth(h));
    assert data[pos..end] == data[pos..pos + 5] + data[pos + 5..sizeAt] + data[sizeAt..rateAt] + data[rateAt..end];
  }

  lemma HoldsFields(data: seq<Byte>, pos: nat, end: nat, h: Header)
    requires Writable(h) && pos <= end < |data| && data[pos..end] == Fields(h) && data[end] == CrcByte(h)
    ensures HoldsAt(data, pos, h)
  {
    assert data[pos..end + 1] == data[pos..end] + [data[end]];
  }

  lemma CrcByteAt(data: seq<Byte>, pos: nat, end: nat, h: Header)
    requires Writable(h) && pos <= end < |data| && data[pos..end] == Fields(h)
    requires Remainder(AllBits(data[pos..end + 1])) == Zeros(8)
    ensures data[end] == CrcByte(h)
  {
    assert data[pos..end + 1] == data[pos..end] + [data[end]];
    WrittenCrc(h, data[end]);
  }

  lemma HeaderIsWritten(data: seq<Byte>, pos: nat)
    requires Sync(data, pos) && NumberContinues(data, pos) && CrcPosition(data, pos) < |data|
    requires Remainder(AllBits(data[pos..CrcPosition(data, pos) + 1])) == Zeros(8)
    ensures HoldsAt(data, pos, HeaderAt(data, pos))
  {
    var h, end := HeaderAt(data, pos), CrcPosition(data, pos);
    FieldsAt(data, pos);
    CrcByteAt(data, pos, end, h);
    HoldsFields(data, pos, end, h);
  }

  /**
   An offset counts exactly when an acceptable header is written there, and then for the header's block
   size. Nothing but its header can be written at an offset that counts.
   */
  lemma CountedIff(data: seq<Byte>, pos: nat, maxBlocksize: int, bitsPerSample: int)
    ensures Samples(data, pos, maxBlocksize, bitsPerSample) > 0
      <==> exists h :: HoldsAt(data, pos, h) && Acceptable(h, maxBlocksize, bitsPerSample)
    ensures forall h :: HoldsAt(data, pos, h) && Acceptable(h, maxBlocksize, bitsPerSample) ==>
      Samples(data, pos, maxBlocksize, bitsPerSample) == BlockSizeOf(h)
  {
    forall h | HoldsAt(data, pos, h)
      ensures IsHeader(data, pos, maxBlocksize, bitsPerSample) <==> Acceptable(h, maxBlocksize, bitsPerSample)
      ensures Acceptable(h, maxBlocksize, bitsPerSample) ==>
        Samples(data, pos, maxBlocksize, bitsPerSample) == BlockSizeOf(h)
    {
      WrittenIsHeader(data, pos, h, maxBlocksize, bitsPerSample);
    }
    if IsHeader(data, pos, maxBlocksize, bitsPerSample) {
      HeaderIsWritten(data, pos);
    }
  }

  // ---------------------------------------------------------------- what counts as a sync code

  /** A sync code is the first five bytes of a header that could be written, with a byte after them. */
  lemma CandidateIff(data: seq<Byte>, pos: nat)
    ensures Candidate(data, pos)
      <==> pos + 5 < |data| && exists h :: Writable(h) && data[pos..pos + 5] == Fixed(h)
  {
    if pos + 5 < |data| {
      forall h | Writable(h) && data[pos..pos + 5] == Fixed(h) ensures Sync(data, pos) { SyncOfFixed(data, pos, h); }
      if Sync(data, pos) {
        LeadRead(data[pos + 4]);
        var more := NumberLength(data[pos + 4]) - 1;
        var h := Header(data[pos + 1] == 0xF9, data[pos + 2] / 16, 0, data[pos + 2] % 16, 0,
          data[pos + 3] / 16, data[pos + 3] / 2 % 8, data[pos + 4] - LeadPrefix(more), seq(more, _ => 0));
        assert Writable(h) && data[pos..pos + 5] == Fixed(h);
      }
    }
  }

  function CandidateOffsets(data: seq<Byte>, n: nat): set<nat> { set pos: nat | pos < n && Candidate(data, pos) }

  lemma OneMoreOffset(data: seq<Byte>, n: nat)
    ensures CandidateOffsets(data, n + 1) == CandidateOffsets(data, n) + (if Candidate(data, n) then {n} else {})
  {
  }

  /** Each of them counts once against an eighth of the limit. */
  lemma {:induction false} CandidatesAre(data: seq<Byte>, n: nat)
    ensures Candidates(data, n) == |CandidateOffsets(data, n)|
  {
    if n > 0 {
      CandidatesAre(data, n - 1);
      OneMoreOffset(data, n - 1);
    }
  }
}
