/**
 The scan that bounds how many samples a FLAC chunk can decode to, without decoding it: every
 offset that holds an acceptable frame header (section 9.1 of RFC 9639) counts.
 */
module Flac {
  import opened Common

  // ---------------------------------------------------------------- polynomials over two elements

  // Coefficients from the highest power down.
  type Bits = seq<bool>

  // x^8 + x^2 + x + 1 without its leading term: the polynomial of section 9.1.8 of RFC 9639.
  const POLYNOMIAL: Bits := [false, false, false, false, false, true, true, true]

  function Zeros(n: nat): Bits { seq(n, _ => false) }

  function Add(a: Bits, b: Bits): (r: Bits)
    requires |a| == |b|
    ensures |r| == |a|
  {
    seq(|a|, i requires 0 <= i < |a| => a[i] != b[i])
  }

  /** One step of long division: bring down the next coefficient, and subtract the polynomial when it goes in. */
  function Divide(r: Bits, bit: bool): (after: Bits)
    requires |r| == 8
    ensures |after| == 8
  {
    var down := r[1..] + [bit];
    if r[0] then Add(down, POLYNOMIAL) else down
  }

  /** The remainder of the division. */
  function Remainder(bits: Bits): (r: Bits)
    ensures |r| == 8
  {
    if bits == [] then Zeros(8) else Divide(Remainder(bits[..|bits| - 1]), bits[|bits| - 1])
  }

  /** The CRC: the remainder of the data followed by eight zeros. */
  function Crc(bits: Bits): Bits { Remainder(bits + Zeros(8)) }

  function TimesX(r: Bits, n: nat): (after: Bits)
    requires |r| == 8
    ensures |after| == 8
  {
    if n == 0 then r else Divide(TimesX(r, n - 1), false)
  }

  lemma RemainderStep(bits: Bits, bit: bool)
    ensures Remainder(bits + [bit]) == Divide(Remainder(bits), bit)
  {
    assert (bits + [bit])[..|bits|] == bits;
  }

  lemma DivideLinear(a: Bits, b: Bits, bit: bool)
    requires |a| == 8 && |b| == 8
    ensures Divide(Add(a, b), bit) == Add(Divide(a, false), Divide(b, bit))
  {
  }

  lemma AddZeros(a: Bits)
    ensures Add(a, Zeros(|a|)) == a
  {
  }

  /** Division is linear: what follows only adds its own remainder. */
  lemma {:induction false} RemainderAppend(m: Bits, y: Bits)
    ensures Remainder(m + y) == Add(TimesX(Remainder(m), |y|), Remainder(y))
    decreases |y|
  {
    if y == [] {
      ConcatEmpty(m);
      AddZeros(Remainder(m));
    } else {
      var front, last := y[..|y| - 1], y[|y| - 1];
      RemainderAppend(m, front);
      ConcatAssociates(m, front, [last]);
      assert front + [last] == y;
      RemainderStep(m + front, last);
      DivideLinear(TimesX(Remainder(m), |front|), Remainder(front), last);
    }
  }

  /** Up to eight coefficients are their own remainder. */
  lemma {:induction false} RemainderShort(y: Bits)
    requires |y| <= 8
    ensures Remainder(y) == Zeros(8 - |y|) + y
    decreases |y|
  {
    if y == [] {
      ConcatEmpty(Zeros(8));
    } else {
      var front, last := y[..|y| - 1], y[|y| - 1];
      RemainderShort(front);
      assert y == front + [last];
      assert Zeros(8 - |front|)[1..] == Zeros(8 - |y|);
    }
  }

  lemma RemainderOctet(m: Bits, octet: Bits)
    requires |octet| == 8
    ensures Remainder(m + octet) == Add(Crc(m), octet)
  {
    RemainderAppend(m, octet);
    RemainderShort(octet);
    ConcatEmpty(octet);
    RemainderAppend(m, Zeros(8));
    RemainderShort(Zeros(8));
    ConcatEmpty(Zeros(8));
    AddZeros(TimesX(Remainder(m), 8));
  }

  /** Eight bits are the CRC of the data exactly when the polynomial divides the data followed by them. */
  lemma CrcDivides(m: Bits, octet: Bits)
    requires |octet| == 8
    ensures Remainder(m + octet) == Zeros(8) <==> octet == Crc(m)
  {
    RemainderOctet(m, octet);
    AddCancels(Crc(m), octet);
  }

  lemma AddCancels(a: Bits, b: Bits)
    requires |a| == |b|
    ensures Add(a, b) == Zeros(|a|) <==> a == b
  {
    if Add(a, b) == Zeros(|a|) {
      forall i | 0 <= i < |a| ensures a[i] == b[i] { assert Add(a, b)[i] == Zeros(|a|)[i]; }
    }
  }

  /** Appending eight bits to the data adds them to the CRC and multiplies by x^8. */
  lemma CrcStep(m: Bits, octet: Bits)
    requires |octet| == 8
    ensures Crc(m + octet) == TimesX(Add(Crc(m), octet), 8)
  {
    RemainderOctet(m, octet);
    RemainderAppend(m + octet, Zeros(8));
    RemainderShort(Zeros(8));
    ConcatEmpty(Zeros(8));
    AddZeros(TimesX(Remainder(m + octet), 8));
  }

  // ---------------------------------------------------------------- bytes as coefficients

  function Power(n: nat): (p: nat)
    ensures p >= 1
  {
    if n == 0 then 1 else 2 * Power(n - 1)
  }

  function Value(bits: Bits): (v: nat)
    ensures v < Power(|bits|)
  {
    if bits == [] then 0 else 2 * Value(bits[..|bits| - 1]) + (if bits[|bits| - 1] then 1 else 0)
  }

  function BitsOf(v: nat, width: nat): (bits: Bits)
    ensures |bits| == width
  {
    if width == 0 then [] else BitsOf(v / 2, width - 1) + [v % 2 == 1]
  }

  lemma {:induction false} ValueOfBits(v: nat, width: nat)
    requires v < Power(width)
    ensures Value(BitsOf(v, width)) == v
    decreases width
  {
    if width > 0 {
      ValueOfBits(v / 2, width - 1);
      assert BitsOf(v, width)[..width - 1] == BitsOf(v / 2, width - 1);
    }
  }

  lemma {:induction false} BitsOfValue(bits: Bits)
    ensures BitsOf(Value(bits), |bits|) == bits
    decreases |bits|
  {
    if bits != [] {
      BitsOfValue(bits[..|bits| - 1]);
      assert bits == bits[..|bits| - 1] + [bits[|bits| - 1]];
    }
  }

  lemma {:induction false} ValueHead(bits: Bits)
    requires bits != []
    ensures Value(bits) == (if bits[0] then Power(|bits| - 1) else 0) + Value(bits[1..])
    decreases |bits|
  {
    if |bits| > 1 {
      var front := bits[..|bits| - 1];
      ValueHead(front);
      assert bits[1..][..|bits| - 2] == front[1..];
    } else {
      assert bits[..0] == [] && bits[1..] == [];
    }
  }

  lemma EightBits()
    ensures Power(7) == 128 && Power(8) == 256
  {
    assert Power(3) == 8 && Power(5) == 4 * Power(3) && Power(7) == 4 * Power(5);
  }

  function Octet(x: Byte): Bits { BitsOf(x, 8) }

  /** The exclusive or of two bytes. */
  function Xor(x: Byte, y: Byte): (r: Byte)
    ensures Octet(r) == Add(Octet(x), Octet(y))
  {
    EightBits();
    var sum := Add(Octet(x), Octet(y));
    BitsOfValue(sum);
    Value(sum)
  }

  function Double(crc: Byte): Byte { crc * 2 % 256 }

  function Shift(crc: Byte): Byte { if crc >= 128 then Xor(Double(crc), 7) else Double(crc) }

  function AllBits(data: seq<Byte>): Bits {
    if data == [] then [] else AllBits(data[..|data| - 1]) + Octet(data[|data| - 1])
  }

  lemma HeadAndTail(bits: Bits)
    requires |bits| == 8
    ensures bits[0] <==> Value(bits) >= 128
    ensures Value(bits[1..]) == Value(bits) % 128
  {
    EightBits();
    ValueHead(bits);
    if bits[0] { assert Value(bits) == 128 + Value(bits[1..]); }
  }

  lemma ValueAppend(bits: Bits, bit: bool)
    ensures Value(bits + [bit]) == 2 * Value(bits) + (if bit then 1 else 0)
  {
    assert (bits + [bit])[..|bits|] == bits;
  }

  lemma DoubleModulo(x: Byte)
    ensures x * 2 % 256 == 2 * (x % 128)
  {
    if x >= 128 { assert x % 128 == x - 128; } else { assert x % 128 == x; }
  }

  lemma Doubled(bits: Bits)
    requires |bits| == 8
    ensures Value(bits) < 256 && Octet(Double(Value(bits))) == bits[1..] + [false]
  {
    EightBits();
    HeadAndTail(bits);
    ValueAppend(bits[1..], false);
    DoubleModulo(Value(bits));
    BitsOfValue(bits[1..] + [false]);
  }

  /** A shifted byte is its coefficients times x, reduced. */
  lemma ShiftDivides(x: Byte)
    ensures Octet(Shift(x)) == Divide(Octet(x), false)
  {
    assert Value(Octet(x)) == x by {
      EightBits();
      ValueOfBits(x, 8);
    }
    HeadAndTail(Octet(x));
    Doubled(Octet(x));
    PolynomialOctet();
    DivideIs(Octet(x), Octet(Double(x)), Octet(7), Octet(Shift(x)));
  }

  lemma DivideIs(bits: Bits, doubled: Bits, polynomial: Bits, shifted: Bits)
    requires |bits| == |doubled| == 8 && polynomial == POLYNOMIAL && doubled == bits[1..] + [false]
    requires shifted == if bits[0] then Add(doubled, polynomial) else doubled
    ensures shifted == Divide(bits, false)
  {
  }

  lemma PolynomialOctet()
    ensures Octet(7) == POLYNOMIAL
  {
    assert BitsOf(0, 1) == [false];
    assert BitsOf(0, 3) == [false, false, false];
    assert BitsOf(0, 5) == [false, false, false, false, false];
    assert BitsOf(1, 6) == [false, false, false, false, false, true];
    assert BitsOf(3, 7) == [false, false, false, false, false, true, true];
  }

  // ---------------------------------------------------------------- the table

  predicate IsTable(table: seq<Byte>) {
    |table| == 256 && forall i: Byte :: i < |table| ==> Octet(table[i]) == TimesX(Octet(i), 8)
  }

  /** Every entry is its index times x^8. */
  method Crc8Table() returns (table: seq<Byte>)
    ensures IsTable(table)
  {
    table := [];
    for i := 0 to 256
      invariant |table| == i
      invariant forall k: Byte :: k < i ==> Octet(table[k]) == TimesX(Octet(k), 8)
    {
      var crc: Byte := i;
      for n := 0 to 8
        invariant Octet(crc) == TimesX(Octet(i), n)
      {
        ShiftDivides(crc);
        crc := Shift(crc);
      }
      table := table + [crc];
    }
  }

  /** The table-driven CRC is the remainder of the division, bit by bit. */
  method TableCrc(table: seq<Byte>, data: seq<Byte>) returns (crc: Byte)
    requires IsTable(table)
    ensures Octet(crc) == Crc(AllBits(data))
  {
    crc := 0;
    CrcOfNothing();
    for k := 0 to |data|
      invariant Octet(crc) == Crc(AllBits(data[..k]))
    {
      assert data[..k + 1][..k] == data[..k];
      CrcStep(AllBits(data[..k]), Octet(data[k]));
      crc := table[Xor(crc, data[k])];
    }
    assert data[..|data|] == data;
  }

  lemma CrcOfNothing()
    ensures Crc(AllBits([])) == Octet(0)
  {
    RemainderShort(Zeros(8));
    ConcatEmpty(Zeros(8));
    ZeroBits(8);
  }

  lemma {:induction false} ZeroBits(n: nat)
    ensures BitsOf(0, n) == Zeros(n)
  {
    if n > 0 { ZeroBits(n - 1); }
  }

  // ---------------------------------------------------------------- frame headers

  /** The five bytes at `pos` could open a frame: none of their fixed fields holds a forbidden code. */
  predicate Sync(data: seq<Byte>, pos: nat) {
    && pos + 4 < |data|
    && data[pos] == 0xFF && (data[pos + 1] == 0xF8 || data[pos + 1] == 0xF9)
    && data[pos + 2] / 16 != 0 && data[pos + 2] % 16 != 15
    && data[pos + 3] / 16 <= 10 && SampleSizeCode(data, pos) != 3 && data[pos + 3] % 2 == 0
    && !Continuation(data[pos + 4]) && data[pos + 4] < 0xFE
  }

  function SampleSizeCode(data: seq<Byte>, pos: nat): int
    requires pos + 4 < |data|
  {
    data[pos + 3] / 2 % 8
  }

  predicate Continuation(b: Byte) { b / 64 == 2 }

  /** How many bits a sample has, 0 standing for the stream's own size. */
  function SampleSize(code: int): int
    requires 0 <= code < 8 && code != 3
  {
    [0, 8, 12, 0, 16, 20, 24, 32][code]
  }

  /** How many bytes the coded frame or sample number takes, as its first byte tells. */
  function NumberLength(first: Byte): nat {
    if first < 0x80 then 1
    else if first < 0xC0 then 1
    else if first < 0xE0 then 2
    else if first < 0xF0 then 3
    else if first < 0xF8 then 4
    else if first < 0xFC then 5
    else if first < 0xFE then 6
    else if first < 0xFF then 7
    else 8
  }

  /** A field of at most two bytes; what the data lacks is left out. */
  function BigEndian(data: seq<Byte>, i: nat, width: nat): int
    requires width <= 2
  {
    if width == 0 || i >= |data| then 0
    else if width == 1 || i + 1 >= |data| then data[i]
    else
      var high: int := data[i];
      high * 256 + data[i + 1]
  }

  function SizeFieldWidth(code: int): nat { if code == 6 then 1 else if code == 7 then 2 else 0 }
  function RateFieldWidth(code: int): nat { if code == 12 then 1 else if code == 13 || code == 14 then 2 else 0 }

  function BlockSize(data: seq<Byte>, code: int, i: nat): int
    requires 1 <= code <= 15
  {
    if code == 1 then 192
    else if code <= 5 then 576 * Power(code - 2)
    else if code <= 7 then BigEndian(data, i, code - 5) + 1
    else 256 * Power(code - 8)
  }

  /** Where the number field ends, and where the CRC stands. */
  function NumberEnd(data: seq<Byte>, pos: nat): nat
    requires Sync(data, pos)
  {
    pos + 4 + NumberLength(data[pos + 4])
  }

  function CrcPosition(data: seq<Byte>, pos: nat): nat
    requires Sync(data, pos)
  {
    NumberEnd(data, pos) + SizeFieldWidth(data[pos + 2] / 16) + RateFieldWidth(data[pos + 2] % 16)
  }

  predicate NumberContinues(data: seq<Byte>, pos: nat)
    requires Sync(data, pos)
  {
    forall k :: pos + 5 <= k < NumberEnd(data, pos) && k < |data| ==> Continuation(data[k])
  }

  /** A frame header at `pos`, declaratively: the polynomial divides its bytes up to and with the CRC byte. */
  predicate IsHeader(data: seq<Byte>, pos: nat, maxBlocksize: int, bitsPerSample: int) {
    && Sync(data, pos)
    && (SampleSize(SampleSizeCode(data, pos)) == 0 || SampleSize(SampleSizeCode(data, pos)) == bitsPerSample)
    && NumberContinues(data, pos)
    && CrcPosition(data, pos) < |data|
    && BlockSize(data, data[pos + 2] / 16, NumberEnd(data, pos)) <= maxBlocksize
    && Remainder(AllBits(data[pos..CrcPosition(data, pos) + 1])) == Zeros(8)
  }

  /** The samples of the frame whose header is at an offset; none when there is no header. */
  function Samples(data: seq<Byte>, pos: nat, maxBlocksize: int, bitsPerSample: int): (n: nat)
    ensures n > 0 <==> IsHeader(data, pos, maxBlocksize, bitsPerSample)
  {
    if IsHeader(data, pos, maxBlocksize, bitsPerSample) then
      BlockSize(data, data[pos + 2] / 16, NumberEnd(data, pos))
    else 0
  }

  lemma HeaderCrc(header: seq<Byte>, crc: Byte, computed: Byte)
    requires Octet(computed) == Crc(AllBits(header))
    ensures computed == crc <==> Remainder(AllBits(header + [crc])) == Zeros(8)
  {
    assert (header + [crc])[..|header|] == header;
    CrcDivides(AllBits(header), Octet(crc));
    EightBits();
    ValueOfBits(crc, 8);
    ValueOfBits(computed, 8);
  }

  method NumberIsCoded(data: seq<Byte>, pos: nat) returns (coded: bool)
    requires Sync(data, pos)
    ensures coded == NumberContinues(data, pos)
  {
    var k := pos + 5;
    while k < NumberEnd(data, pos) && k < |data|
      invariant pos + 5 <= k
      invariant forall j :: pos + 5 <= j < k && j < |data| ==> Continuation(data[j])
    {
      if !Continuation(data[k]) { return false; }
      k := k + 1;
    }
    return true;
  }

  method CrcMatches(table: seq<Byte>, data: seq<Byte>, pos: nat, i: nat) returns (matches: bool)
    requires IsTable(table) && pos <= i < |data|
    ensures matches <==> Remainder(AllBits(data[pos..i + 1])) == Zeros(8)
  {
    var crc := TableCrc(table, data[pos..i]);
    HeaderCrc(data[pos..i], data[i], crc);
    assert data[pos..i] + [data[i]] == data[pos..i + 1];
    return crc == data[i];
  }

  method HeaderBlocksize(table: seq<Byte>, data: seq<Byte>, pos: nat, maxBlocksize: int, bitsPerSample: int)
    returns (blocksize: int)
    requires IsTable(table) && Sync(data, pos)
    ensures blocksize == Samples(data, pos, maxBlocksize, bitsPerSample)
  {
    var blocksizeCode, rateCode := data[pos + 2] / 16, data[pos + 2] % 16;
    var size := SampleSize(SampleSizeCode(data, pos));
    if size != 0 && size != bitsPerSample { return 0; }
    var coded := NumberIsCoded(data, pos);
    if !coded { return 0; }
    var i := pos + 4 + NumberLength(data[pos + 4]);
    blocksize := BlockSize(data, blocksizeCode, i);
    i := i + SizeFieldWidth(blocksizeCode);
    i := i + RateFieldWidth(rateCode);
    if i >= |data| || blocksize > maxBlocksize { return 0; }
    var matches := CrcMatches(table, data, pos, i);
    if !matches { return 0; }
  }

  // ---------------------------------------------------------------- the scan

  predicate Candidate(data: seq<Byte>, pos: nat) { Sync(data, pos) && pos + 5 < |data| }

  function Candidates(data: seq<Byte>, n: nat): nat {
    if n == 0 then 0 else Candidates(data, n - 1) + (if Candidate(data, n - 1) then 1 else 0)
  }

  /** The samples of all headers at the first `n` offsets. */
  function Total(data: seq<Byte>, n: nat, maxBlocksize: int, bitsPerSample: int): nat {
    if n == 0 then 0
    else Total(data, n - 1, maxBlocksize, bitsPerSample) + Samples(data, n - 1, maxBlocksize, bitsPerSample)
  }

  /** A header needs a byte past the fields the sync pattern looks at. */
  lemma HeaderIsCandidate(data: seq<Byte>, pos: nat, maxBlocksize: int, bitsPerSample: int)
    ensures IsHeader(data, pos, maxBlocksize, bitsPerSample) ==> Candidate(data, pos)
  {
  }

  lemma {:induction false} CountsGrow(data: seq<Byte>, m: nat, n: nat, maxBlocksize: int, bitsPerSample: int)
    requires m <= n
    ensures Candidates(data, m) <= Candidates(data, n)
    ensures Total(data, m, maxBlocksize, bitsPerSample) <= Total(data, n, maxBlocksize, bitsPerSample)
    decreases n
  {
    if m < n { CountsGrow(data, m, n - 1, maxBlocksize, bitsPerSample); }
  }

  lemma {:induction false} NoCandidates(data: seq<Byte>, m: nat, n: nat, maxBlocksize: int, bitsPerSample: int)
    requires m <= n && forall q :: m <= q < n ==> !Candidate(data, q)
    ensures Candidates(data, m) == Candidates(data, n)
    ensures Total(data, m, maxBlocksize, bitsPerSample) == Total(data, n, maxBlocksize, bitsPerSample)
    decreases n
  {
    if m < n {
      NoCandidates(data, m, n - 1, maxBlocksize, bitsPerSample);
      HeaderIsCandidate(data, n - 1, maxBlocksize, bitsPerSample);
    }
  }

  /**
   The scan: within the limit it is the sum over every offset that holds a header; it is past the limit
   exactly when that sum is, or when there are more sync codes than an eighth of the limit.
   */
  method ChunkSamples(table: seq<Byte>, data: seq<Byte>, maxBlocksize: int, bitsPerSample: int, limit: nat)
    returns (total: nat)
    requires IsTable(table)
    ensures total <= limit ==> total == Total(data, |data|, maxBlocksize, bitsPerSample)
    ensures total <= limit <==>
      Total(data, |data|, maxBlocksize, bitsPerSample) <= limit && Candidates(data, |data|) <= limit / 8
  {
    total := 0;
    var candidates := 0;
    var pos := 0;
    while pos < |data|
      invariant 0 <= pos <= |data|
      invariant total == Total(data, pos, maxBlocksize, bitsPerSample) <= limit
      invariant candidates == Candidates(data, pos) <= limit / 8
    {
      if Sync(data, pos) {
        if pos + 5 >= |data| { break; }
        candidates := candidates + 1;
        if candidates > limit / 8 {
          CountsGrow(data, pos + 1, |data|, maxBlocksize, bitsPerSample);
          return limit + 1;
        }
        var blocksize := HeaderBlocksize(table, data, pos, maxBlocksize, bitsPerSample);
        total := total + blocksize;
        if total > limit {
          CountsGrow(data, pos + 1, |data|, maxBlocksize, bitsPerSample);
          return total;
        }
        // The search resumes past the sync code, whose second byte cannot start another.
        NoCandidates(data, pos + 1, pos + 2, maxBlocksize, bitsPerSample);
        pos := pos + 2;
      } else {
        NoCandidates(data, pos, pos + 1, maxBlocksize, bitsPerSample);
        pos := pos + 1;
      }
    }
    NoCandidates(data, pos, |data|, maxBlocksize, bitsPerSample);
  }

  function SamplesAt(data: seq<Byte>, starts: seq<nat>, maxBlocksize: int, bitsPerSample: int): nat {
    if starts == [] then 0
    else
      SamplesAt(data, starts[..|starts| - 1], maxBlocksize, bitsPerSample)
      + Samples(data, starts[|starts| - 1], maxBlocksize, bitsPerSample)
  }

  predicate Increasing(starts: seq<nat>, end: nat) {
    && (forall i, j :: 0 <= i < j < |starts| ==> starts[i] < starts[j])
    && (forall i :: 0 <= i < |starts| ==> starts[i] < end)
  }

  /** However the decoder splits the chunk into frames, they hold at most the sum over all offsets. */
  lemma {:induction false} NoSplitDecodesMore(data: seq<Byte>, starts: seq<nat>, end: nat, maxBlocksize: int,
      bitsPerSample: int)
    requires Increasing(starts, end)
    ensures SamplesAt(data, starts, maxBlocksize, bitsPerSample) <= Total(data, end, maxBlocksize, bitsPerSample)
    decreases |starts|
  {
    if starts != [] {
      var last := starts[|starts| - 1];
      NoSplitDecodesMore(data, starts[..|starts| - 1], last, maxBlocksize, bitsPerSample);
      CountsGrow(data, last + 1, end, maxBlocksize, bitsPerSample);
    }
  }

  function Offsets(n: nat): seq<nat> { seq(n, i => i) }

  /** And the sum counts each header once: it is what the frames at all offsets would hold. */
  lemma {:induction false} TotalIsReached(data: seq<Byte>, n: nat, maxBlocksize: int, bitsPerSample: int)
    ensures Increasing(Offsets(n), n)
    ensures SamplesAt(data, Offsets(n), maxBlocksize, bitsPerSample) == Total(data, n, maxBlocksize, bitsPerSample)
    decreases n
  {
    if n > 0 {
      TotalIsReached(data, n - 1, maxBlocksize, bitsPerSample);
      assert Offsets(n)[..n - 1] == Offsets(n - 1);
    }
  }
}
