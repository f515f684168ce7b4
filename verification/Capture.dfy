/**
 PCM framing: captured audio is cut into fixed-size frames, on a timeline kept in whole
 microseconds with a carried residue.
 */
module PcmFraming {
  import opened Common
  import opened Division

  const RESET_GAP_US := 1_500_000

  /** The encoder reaches a frame only with a positive chunk size. */
  datatype Format = Format(rate: Positive, stride: Positive, chunkSamples: Positive)

  function FrameSize(f: Format): Positive { Times(f.chunkSamples, f.stride) }

  function Times(x: Positive, y: Positive): Positive { x * y }

  // ---------------------------------------------------------------- frames

  function Frames(f: Format, data: seq<Byte>): seq<seq<Byte>>
    decreases |data|
  {
    if |data| < FrameSize(f) then [] else [data[..FrameSize(f)]] + Frames(f, data[FrameSize(f)..])
  }

  function Rest(f: Format, data: seq<Byte>): (r: seq<Byte>)
    ensures |r| < FrameSize(f)
    decreases |data|
  {
    if |data| < FrameSize(f) then data else Rest(f, data[FrameSize(f)..])
  }

  function Flatten(frames: seq<seq<Byte>>): seq<Byte> {
    if frames == [] then [] else frames[0] + Flatten(frames[1..])
  }

  /** Frames and buffer are the input, byte for byte, and every frame is full. */
  lemma {:induction false} FramesAreInput(f: Format, data: seq<Byte>)
    ensures Flatten(Frames(f, data)) + Rest(f, data) == data
    ensures forall i :: 0 <= i < |Frames(f, data)| ==> |Frames(f, data)[i]| == FrameSize(f)
    decreases |data|
  {
    if |data| >= FrameSize(f) {
      var head, tail := data[..FrameSize(f)], data[FrameSize(f)..];
      FramesAreInput(f, tail);
      assert Frames(f, data)[1..] == Frames(f, tail);
      ConcatAssociates(head, Flatten(Frames(f, tail)), Rest(f, tail));
    }
  }

  /** Cutting does not depend on how the input is split. */
  lemma {:induction false} FramesSplit(f: Format, a: seq<Byte>, b: seq<Byte>)
    ensures Frames(f, a + b) == Frames(f, a) + Frames(f, Rest(f, a) + b)
    ensures Rest(f, a + b) == Rest(f, Rest(f, a) + b)
    decreases |a|
  {
    if |a| >= FrameSize(f) {
      var head, tail := a[..FrameSize(f)], a[FrameSize(f)..];
      FramesSplit(f, tail, b);
      assert (a + b)[..FrameSize(f)] == head && (a + b)[FrameSize(f)..] == tail + b;
      ConcatAssociates([head], Frames(f, tail), Frames(f, Rest(f, tail) + b));
    }
  }

  // ---------------------------------------------------------------- durations

  /** One frame in ticks of 1/rate microseconds. */
  function Step(f: Format): nat { f.chunkSamples * MICROSECONDS }

  /** The ticks of `n` frames. */
  function Ticks(f: Format, n: nat): nat { if n == 0 then 0 else Ticks(f, n - 1) + Step(f) }

  lemma {:induction false} TicksAre(f: Format, n: nat)
    ensures Ticks(f, n) == n * Step(f)
  {
    if n > 0 { TicksAre(f, n - 1); }
  }

  function Delta(f: Format, residue: nat): nat { (residue + Step(f)) / f.rate }
  function Carried(f: Format, residue: nat): nat { (residue + Step(f)) % f.rate }

  /** The durations of the next `n` frames. */
  function Durations(f: Format, residue: nat, n: nat): seq<nat>
    decreases n
  {
    if n == 0 then [] else [Delta(f, residue)] + Durations(f, Carried(f, residue), n - 1)
  }

  function ResidueAfter(f: Format, residue: nat, n: nat): nat
    decreases n
  {
    if n == 0 then residue else ResidueAfter(f, Carried(f, residue), n - 1)
  }

  function Sum(xs: seq<nat>): nat { if xs == [] then 0 else xs[0] + Sum(xs[1..]) }

  /** The residue carries exactly: `n` durations add up to the whole microseconds of `n` frames. */
  lemma {:induction false} DurationsExact(f: Format, residue: nat, n: nat)
    requires residue < f.rate
    ensures Sum(Durations(f, residue, n)) == (residue + Ticks(f, n)) / f.rate
    ensures ResidueAfter(f, residue, n) == (residue + Ticks(f, n)) % f.rate
    decreases n
  {
    if n == 0 {
      QuotientIs(residue, f.rate, 0, residue);
    } else {
      var d, r := Delta(f, residue), Carried(f, residue);
      DurationsExact(f, r, n - 1);
      assert Durations(f, residue, n)[1..] == Durations(f, r, n - 1);
      assert residue + Step(f) == d * f.rate + r;
      AddQuotient(r + Ticks(f, n - 1), f.rate, d);
    }
  }

  lemma AddQuotient(n: nat, d: Positive, q: nat)
    ensures (q * d + n) / d == q + n / d && (q * d + n) % d == n % d
  {
    DivisionBounds(n, d);
    assert (q + n / d) * d == q * d + n / d * d;
    QuotientIs(q * d + n, d, q + n / d, n % d);
  }

  lemma {:induction false} DurationsSplit(f: Format, residue: nat, m: nat, n: nat)
    ensures Durations(f, residue, m + n) == Durations(f, residue, m) + Durations(f, ResidueAfter(f, residue, m), n)
    ensures ResidueAfter(f, residue, m + n) == ResidueAfter(f, ResidueAfter(f, residue, m), n)
    decreases m
  {
    if m > 0 { DurationsSplit(f, Carried(f, residue), m - 1, n); }
  }

  // ---------------------------------------------------------------- the encoder

  datatype Pcm = Pcm(buffer: seq<Byte>, pendingUs: Option<int>, residue: nat, lastInputUs: Option<int>)

  datatype Frame = Frame(bytes: seq<Byte>, durationUs: nat)

  const IDLE := Pcm([], None, 0, None)

  predicate GapBefore(p: Pcm, timestampUs: int) {
    p.lastInputUs.Some? && timestampUs - p.lastInputUs.value > RESET_GAP_US
  }

  /** What an input does to the frame timeline: the first one, or one long after the last, begins it. */
  function Entered(p: Pcm, timestampUs: int): Pcm {
    var gap := GapBefore(p, timestampUs);
    p.(pendingUs := if gap || p.pendingUs.None? then Some(timestampUs) else p.pendingUs,
       residue := if gap then 0 else p.residue,
       lastInputUs := Some(timestampUs))
  }

  function Zip(bytes: seq<seq<Byte>>, durations: seq<nat>): seq<Frame>
    requires |bytes| == |durations|
  {
    seq(|bytes|, i requires 0 <= i < |bytes| => Frame(bytes[i], durations[i]))
  }

  function FrameDurations(f: Format, residue: nat, data: seq<Byte>): (d: seq<nat>)
    ensures |d| == |Frames(f, data)|
  {
    DurationCount(f, residue, |Frames(f, data)|);
    Durations(f, residue, |Frames(f, data)|)
  }

  lemma {:induction false} DurationCount(f: Format, residue: nat, n: nat)
    ensures |Durations(f, residue, n)| == n
    decreases n
  {
    if n > 0 { DurationCount(f, Carried(f, residue), n - 1); }
  }

  function Emitted(f: Format, p: Pcm, data: seq<Byte>): seq<Frame> {
    Zip(Frames(f, data), FrameDurations(f, p.residue, data))
  }

  function Drained(f: Format, p: Pcm): Pcm {
    var n := |Frames(f, p.buffer)|;
    p.(buffer := Rest(f, p.buffer),
       pendingUs := if p.pendingUs.Some? then Some(p.pendingUs.value + Sum(Durations(f, p.residue, n))) else None,
       residue := ResidueAfter(f, p.residue, n))
  }

  function Filled(p: Pcm, pcm: seq<Byte>, timestampUs: int): Pcm {
    Entered(p, timestampUs).(buffer := p.buffer + pcm)
  }

  function Processed(f: Format, p: Pcm, pcm: seq<Byte>, timestampUs: int): (Pcm, seq<Frame>) {
    var filled := Filled(p, pcm, timestampUs);
    (Drained(f, filled), Emitted(f, filled, filled.buffer))
  }

  function FlushedFrames(f: Format, p: Pcm): seq<Frame>
    requires |p.buffer| < FrameSize(f)
  {
    if p.buffer == [] then []
    else [Frame(p.buffer + Silence(FrameSize(f) - |p.buffer|), Delta(f, p.residue))]
  }

  class PcmPassthrough {
    const f: Format
    var buffer: seq<Byte>
    var pendingUs: Option<int>
    var residue: nat
    var lastInputUs: Option<int>

    ghost function AsPcm(): Pcm reads this { Pcm(buffer, pendingUs, residue, lastInputUs) }

    ghost predicate Valid() reads this { |buffer| < FrameSize(f) && residue < f.rate }

    constructor (format: Format)
      ensures Valid() && f == format && AsPcm() == IDLE
    {
      f := format;
      buffer, pendingUs, residue, lastInputUs := [], None, 0, None;
    }

    method Process(pcm: seq<Byte>, timestampUs: int) returns (frames: seq<Frame>)
      requires Valid()
      modifies this
      ensures Valid() && (AsPcm(), frames) == Processed(f, old(AsPcm()), pcm, timestampUs)
    {
      if lastInputUs.Some? && timestampUs - lastInputUs.value > RESET_GAP_US {
        pendingUs := Some(timestampUs);
        residue := 0;
      }
      lastInputUs := Some(timestampUs);
      if pendingUs.None? { pendingUs := Some(timestampUs); }
      buffer := buffer + pcm;
      ghost var filled := AsPcm();
      assert filled == Filled(old(AsPcm()), pcm, timestampUs);
      frames := Cut();
    }

    method Cut() returns (frames: seq<Frame>)
      requires residue < f.rate
      modifies this
      ensures Valid() && AsPcm() == Drained(f, old(AsPcm())) && frames == Emitted(f, old(AsPcm()), old(buffer))
    {
      frames := [];
      ConcatEmpty(Emitted(f, AsPcm(), buffer));
      while |buffer| >= FrameSize(f)
        invariant residue < f.rate
        invariant Drained(f, AsPcm()) == Drained(f, old(AsPcm()))
        invariant frames + Emitted(f, AsPcm(), buffer) == Emitted(f, old(AsPcm()), old(buffer))
        decreases |buffer|
      {
        ghost var before := AsPcm();
        var frame := buffer[..FrameSize(f)];
        buffer := buffer[FrameSize(f)..];
        var total := residue + Step(f);
        var delta := total / f.rate;
        residue := total % f.rate;
        if pendingUs.Some? { pendingUs := Some(pendingUs.value + delta); }
        CutStep(f, before, AsPcm(), Frame(frame, delta));
        ConcatAssociates(frames, [Frame(frame, delta)], Emitted(f, AsPcm(), buffer));
        frames := frames + [Frame(frame, delta)];
      }
      assert Emitted(f, AsPcm(), buffer) == [];
      ConcatEmpty(frames);
    }

    method Flush() returns (frames: seq<Frame>)
      requires Valid()
      modifies this
      ensures Valid() && frames == FlushedFrames(f, old(AsPcm()))
      ensures AsPcm() == if old(buffer) == [] then old(AsPcm()) else IDLE.(lastInputUs := old(lastInputUs))
    {
      if buffer == [] { return []; }
      var frame := buffer + Silence(FrameSize(f) - |buffer|);
      var delta := (residue + Step(f)) / f.rate;
      buffer, pendingUs, residue := [], None, 0;
      return [Frame(frame, delta)];
    }
  }

  lemma CutStep(f: Format, before: Pcm, after: Pcm, frame: Frame)
    requires |before.buffer| >= FrameSize(f)
    requires frame == Frame(before.buffer[..FrameSize(f)], Delta(f, before.residue))
    requires after == before.(buffer := before.buffer[FrameSize(f)..], residue := Carried(f, before.residue),
      pendingUs := if before.pendingUs.Some? then Some(before.pendingUs.value + frame.durationUs) else None)
    ensures Drained(f, after) == Drained(f, before)
    ensures [frame] + Emitted(f, after, after.buffer) == Emitted(f, before, before.buffer)
  {
    var n := |Frames(f, after.buffer)|;
    assert Frames(f, before.buffer) == [frame.bytes] + Frames(f, after.buffer);
    assert Durations(f, before.residue, n + 1)[1..] == Durations(f, after.residue, n);
  }

  // ---------------------------------------------------------------- runs

  datatype Input = Input(pcm: seq<Byte>, timestampUs: int)

  function Joined(inputs: seq<Input>): seq<Byte> {
    if inputs == [] then [] else Joined(inputs[..|inputs| - 1]) + inputs[|inputs| - 1].pcm
  }

  datatype Log = Log(state: Pcm, frames: seq<Frame>)

  function Run(f: Format, inputs: seq<Input>): Log {
    if inputs == [] then Log(IDLE, [])
    else
      var before, input := Run(f, inputs[..|inputs| - 1]), inputs[|inputs| - 1];
      var (state, frames) := Processed(f, before.state, input.pcm, input.timestampUs);
      Log(state, before.frames + frames)
  }

  function BytesOf(frames: seq<Frame>): seq<seq<Byte>> {
    seq(|frames|, i requires 0 <= i < |frames| => frames[i].bytes)
  }
  function DurationsOf(frames: seq<Frame>): seq<nat> {
    seq(|frames|, i requires 0 <= i < |frames| => frames[i].durationUs)
  }

  lemma Join(a: seq<Frame>, b: seq<Frame>)
    ensures BytesOf(a + b) == BytesOf(a) + BytesOf(b)
    ensures DurationsOf(a + b) == DurationsOf(a) + DurationsOf(b)
  {
  }

  lemma EmittedParts(f: Format, p: Pcm, data: seq<Byte>)
    ensures BytesOf(Emitted(f, p, data)) == Frames(f, data)
    ensures DurationsOf(Emitted(f, p, data)) == Durations(f, p.residue, |Frames(f, data)|)
  {
    DurationCount(f, p.residue, |Frames(f, data)|);
  }

  /** However the input was split, and whatever its timestamps, the frames are those of the joined input. */
  lemma {:induction false} FramingIndependentOfSplit(f: Format, inputs: seq<Input>)
    ensures BytesOf(Run(f, inputs).frames) == Frames(f, Joined(inputs))
    ensures Run(f, inputs).state.buffer == Rest(f, Joined(inputs))
    decreases |inputs|
  {
    if inputs != [] {
      var front, input := inputs[..|inputs| - 1], inputs[|inputs| - 1];
      var before := Run(f, front);
      FramingIndependentOfSplit(f, front);
      FramesSplit(f, Joined(front), input.pcm);
      var filled := Filled(before.state, input.pcm, input.timestampUs);
      EmittedParts(f, filled, filled.buffer);
      Join(before.frames, Emitted(f, filled, filled.buffer));
    }
  }

  lemma {:induction false} FlattenAppend(frames: seq<seq<Byte>>, last: seq<Byte>)
    ensures Flatten(frames + [last]) == Flatten(frames) + last
    decreases |frames|
  {
    if frames != [] {
      assert (frames + [last])[1..] == frames[1..] + [last];
      FlattenAppend(frames[1..], last);
    }
  }

  /** What goes out with a flush: the frames, and whatever is left padded to one. */
  function SentWithFlush(f: Format, data: seq<Byte>): seq<seq<Byte>> {
    var rest := Rest(f, data);
    Frames(f, data) + if rest == [] then [] else [rest + Silence(FrameSize(f) - |rest|)]
  }

  lemma FlushedBytes(f: Format, inputs: seq<Input>)
    ensures |Run(f, inputs).state.buffer| < FrameSize(f)
    ensures BytesOf(Run(f, inputs).frames + FlushedFrames(f, Run(f, inputs).state)) == SentWithFlush(f, Joined(inputs))
  {
    var run := Run(f, inputs);
    FramingIndependentOfSplit(f, inputs);
    Join(run.frames, FlushedFrames(f, run.state));
  }

  lemma SentFrames(f: Format, data: seq<Byte>)
    ensures var frames := SentWithFlush(f, data);
      forall i :: 0 <= i < |frames| ==> |frames[i]| == FrameSize(f)
  {
    FramesAreInput(f, data);
  }

  lemma SentIsPadded(f: Format, data: seq<Byte>)
    ensures var rest := Rest(f, data);
      Flatten(SentWithFlush(f, data)) == data + Silence(if rest == [] then 0 else FrameSize(f) - |rest|)
  {
    var rest := Rest(f, data);
    FramesAreInput(f, data);
    if rest == [] {
      ConcatEmpty(Frames(f, data));
      ConcatEmpty(Flatten(Frames(f, data)));
      assert Silence(0) == [];
    } else {
      var pad := Silence(FrameSize(f) - |rest|);
      FlattenAppend(Frames(f, data), rest + pad);
      ConcatAssociates(Flatten(Frames(f, data)), rest, pad);
    }
  }

  /** With a flush all of the input goes out, padded with less than a frame of zeros; every frame is full. */
  lemma FlushSendsRest(f: Format, inputs: seq<Input>)
    ensures |Run(f, inputs).state.buffer| < FrameSize(f)
    ensures
      var frames := BytesOf(Run(f, inputs).frames + FlushedFrames(f, Run(f, inputs).state));
      var input, sent := Joined(inputs), Flatten(frames);
      && (forall i :: 0 <= i < |frames| ==> |frames[i]| == FrameSize(f))
      && |input| <= |sent| < |input| + FrameSize(f)
      && sent[..|input|] == input && (forall i :: |input| <= i < |sent| ==> sent[i] == 0)
  {
    FlushedBytes(f, inputs);
    SentFrames(f, Joined(inputs));
    SentIsPadded(f, Joined(inputs));
  }

  /** No input comes more than the reset gap after the one before it. */
  predicate Gapless(inputs: seq<Input>) {
    forall i :: 0 < i < |inputs| ==> inputs[i].timestampUs - inputs[i - 1].timestampUs <= RESET_GAP_US
  }

  lemma {:induction false} LastInput(f: Format, inputs: seq<Input>)
    ensures Run(f, inputs).state.lastInputUs == if inputs == [] then None else Some(inputs[|inputs| - 1].timestampUs)
  {
  }

  /** The timeline since `first`: the durations of all frames so far, and the time of the next. */
  predicate OnTimeline(f: Format, first: int, log: Log) {
    var n := |log.frames|;
    && DurationsOf(log.frames) == Durations(f, 0, n)
    && log.state.residue == ResidueAfter(f, 0, n)
    && log.state.pendingUs == Some(first + Sum(Durations(f, 0, n)))
  }

  lemma StaysOnTimeline(f: Format, first: int, log: Log, filled: Pcm)
    requires OnTimeline(f, first, log.(state := filled))
    ensures OnTimeline(f, first, Log(Drained(f, filled), log.frames + Emitted(f, filled, filled.buffer)))
  {
    var m, k := |log.frames|, |Frames(f, filled.buffer)|;
    DurationsSplit(f, 0, m, k);
    SumSplit(Durations(f, 0, m), Durations(f, filled.residue, k));
    EmittedParts(f, filled, filled.buffer);
    Join(log.frames, Emitted(f, filled, filled.buffer));
  }

  lemma {:induction false} RunOnTimeline(f: Format, inputs: seq<Input>)
    requires Gapless(inputs) && inputs != []
    ensures OnTimeline(f, inputs[0].timestampUs, Run(f, inputs))
    decreases |inputs|
  {
    var front, input := inputs[..|inputs| - 1], inputs[|inputs| - 1];
    var before := Run(f, front);
    LastInput(f, front);
    assert !GapBefore(before.state, input.timestampUs);
    if front != [] { RunOnTimeline(f, front); }
    StaysOnTimeline(f, inputs[0].timestampUs, before, Filled(before.state, input.pcm, input.timestampUs));
  }

  /**
   Without a gap no rounding accumulates: after `n` frames the emitted durations add up to the whole
   microseconds of `n` frames, and the pending timestamp is the first input's plus just that.
   */
  lemma TimelineExact(f: Format, inputs: seq<Input>)
    requires Gapless(inputs) && inputs != []
    ensures var log := Run(f, inputs); var n := |log.frames|;
      && Sum(DurationsOf(log.frames)) == n * Step(f) / f.rate
      && log.state.pendingUs == Some(inputs[0].timestampUs + n * Step(f) / f.rate)
      && log.state.residue == n * Step(f) % f.rate
  {
    RunOnTimeline(f, inputs);
    DurationsExact(f, 0, |Run(f, inputs).frames|);
    TicksAre(f, |Run(f, inputs).frames|);
  }

  /** After a larger gap the timeline starts anew at the input's timestamp. */
  lemma GapRestarts(f: Format, p: Pcm, pcm: seq<Byte>, timestampUs: int)
    requires GapBefore(p, timestampUs)
    ensures var (after, frames) := Processed(f, p, pcm, timestampUs);
      OnTimeline(f, timestampUs, Log(after, frames))
  {
    var filled := Filled(p, pcm, timestampUs);
    ConcatEmpty(Emitted(f, filled, filled.buffer));
    StaysOnTimeline(f, timestampUs, Log(p, []), filled);
  }

  lemma {:induction false} SumSplit(a: seq<nat>, b: seq<nat>)
    ensures Sum(a + b) == Sum(a) + Sum(b)
    decreases |a|
  {
    if a == [] {
      ConcatEmpty(b);
    } else {
      SumSplit(a[1..], b);
      assert (a + b)[1..] == a[1..] + b;
    }
  }
}

/**
 Capture of PCM frames: every frame is stamped with the capture time of its first sample. Sends succeed;
 the clock is a parameter.
 */
module SourceCapture {
  import opened Common
  import opened Division
  import opened PcmFraming

  const MAX_CAPTURE_BACKLOG_US := 500_000

  /** Samples still buffered of one fed chunk, and the capture time of the first of them. */
  datatype Span = Span(samples: Positive, timestampUs: int)

  /** The encoded frame and its capture time. */
  datatype Sent = Sent(bytes: seq<Byte>, capturedUs: int)

  datatype Capture = Capture(spans: seq<Span>, frameEndUs: int, encoder: Pcm)

  function NextStamp(spans: seq<Span>, frameEndUs: int): int {
    if spans != [] then spans[0].timestampUs else frameEndUs
  }

  function Consumed(rate: Positive, spans: seq<Span>, samples: nat): seq<Span>
    decreases |spans|
  {
    if samples == 0 || spans == [] then spans
    else if samples >= spans[0].samples then Consumed(rate, spans[1..], samples - spans[0].samples)
    else [Span(spans[0].samples - samples, spans[0].timestampUs + Duration(samples, rate))] + spans[1..]
  }

  /** The capture times of a run of frames. */
  function Stamps(f: Format, c: Capture, frames: seq<Frame>): seq<int>
    decreases |frames|
  {
    if frames == [] then []
    else
      var captured := NextStamp(c.spans, c.frameEndUs);
      [captured] + Stamps(f, Stepped(f, c, frames[0]), frames[1..])
  }

  function Stepped(f: Format, c: Capture, frame: Frame): Capture {
    c.(spans := Consumed(f.rate, c.spans, f.chunkSamples),
       frameEndUs := NextStamp(c.spans, c.frameEndUs) + frame.durationUs)
  }

  function AfterFrames(f: Format, c: Capture, frames: seq<Frame>): Capture
    decreases |frames|
  {
    if frames == [] then c else AfterFrames(f, Stepped(f, c, frames[0]), frames[1..])
  }

  /** Frames captured too long ago are skipped. */
  function Fresh(frames: seq<Frame>, stamps: seq<int>, staleBeforeUs: int): seq<Sent>
    requires |frames| == |stamps|
  {
    if frames == [] then []
    else
      (if stamps[0] >= staleBeforeUs then [Sent(frames[0].bytes, stamps[0])] else [])
      + Fresh(frames[1..], stamps[1..], staleBeforeUs)
  }

  predicate Stale(f: Format, pcm: seq<Byte>, anchorUs: int, nowUs: int) {
    anchorUs + Duration(|pcm| / f.stride, f.rate) < nowUs - MAX_CAPTURE_BACKLOG_US
  }

  predicate Takes(f: Format, pcm: seq<Byte>, anchorUs: int, nowUs: int) {
    pcm != [] && |pcm| % f.stride == 0 && !Stale(f, pcm, anchorUs, nowUs)
  }

  function Queued(f: Format, c: Capture, pcm: seq<Byte>, anchorUs: int): Capture
    requires pcm != [] && |pcm| % f.stride == 0
  {
    DivisionBounds(|pcm|, f.stride);
    c.(spans := c.spans + [Span(|pcm| / f.stride, anchorUs)],
       encoder := Processed(f, c.encoder, pcm, anchorUs).0)
  }

  /** The state after a fed chunk; a stale one, an empty one and a broken one change nothing. */
  function Fed(f: Format, c: Capture, pcm: seq<Byte>, anchorUs: int, nowUs: int): Capture {
    if !Takes(f, pcm, anchorUs, nowUs) then c
    else AfterFrames(f, Queued(f, c, pcm, anchorUs), Processed(f, c.encoder, pcm, anchorUs).1)
  }

  function FedStamps(f: Format, c: Capture, pcm: seq<Byte>, anchorUs: int, nowUs: int): seq<int> {
    if !Takes(f, pcm, anchorUs, nowUs) then []
    else Stamps(f, Queued(f, c, pcm, anchorUs), Processed(f, c.encoder, pcm, anchorUs).1)
  }

  lemma {:induction false} StampCount(f: Format, c: Capture, frames: seq<Frame>)
    ensures |Stamps(f, c, frames)| == |frames|
    decreases |frames|
  {
    if frames != [] { StampCount(f, Stepped(f, c, frames[0]), frames[1..]); }
  }

  class SourceCapture {
    const f: Format
    const encoder: PcmPassthrough
    var spans: seq<Span>
    var frameEndUs: int

    ghost function AsCapture(): Capture reads this, encoder { Capture(spans, frameEndUs, encoder.AsPcm()) }

    ghost predicate Valid() reads this, encoder { encoder.f == f && encoder.Valid() }

    constructor (format: Format)
      ensures Valid() && fresh(encoder) && f == format && AsCapture() == Capture([], 0, IDLE)
    {
      f := format;
      encoder := new PcmPassthrough(format);
      spans, frameEndUs := [], 0;
    }

    method Feed(pcm: seq<Byte>, anchorUs: int, nowUs: int) returns (accepted: bool, sent: seq<Sent>)
      requires Valid()
      modifies this, encoder
      ensures Valid() && AsCapture() == Fed(f, old(AsCapture()), pcm, anchorUs, nowUs)
      ensures accepted == (|pcm| % f.stride == 0)
      ensures SentAre(f, old(AsCapture()), pcm, anchorUs, nowUs, sent)
    {
      sent := [];
      if pcm == [] { return true, sent; }
      if |pcm| % f.stride != 0 { return false, sent; }
      DivisionBounds(|pcm|, f.stride);
      var samples := |pcm| / f.stride;
      if anchorUs + Duration(samples, f.rate) < nowUs - MAX_CAPTURE_BACKLOG_US { return true, sent; }
      spans := spans + [Span(samples, anchorUs)];
      var frames := encoder.Process(pcm, anchorUs);
      ghost var queued := AsCapture();
      assert queued == Queued(f, old(AsCapture()), pcm, anchorUs);
      sent := SendFrames(frames, nowUs - MAX_CAPTURE_BACKLOG_US);
      return true, sent;
    }

    method SendFrames(frames: seq<Frame>, staleBeforeUs: int) returns (sent: seq<Sent>)
      requires Valid()
      modifies this
      ensures Valid() && AsCapture() == AfterFrames(f, old(AsCapture()), frames)
      ensures |Stamps(f, old(AsCapture()), frames)| == |frames|
      ensures sent == Fresh(frames, Stamps(f, old(AsCapture()), frames), staleBeforeUs)
    {
      sent := [];
      StampCount(f, AsCapture(), frames);
      ghost var all := Fresh(frames, Stamps(f, AsCapture(), frames), staleBeforeUs);
      var rest := frames;
      ConcatEmpty(all);
      while rest != []
        invariant Valid() && encoder.AsPcm() == old(encoder.AsPcm())
        invariant AfterFrames(f, AsCapture(), rest) == AfterFrames(f, old(AsCapture()), frames)
        invariant |Stamps(f, AsCapture(), rest)| == |rest|
        invariant sent + Fresh(rest, Stamps(f, AsCapture(), rest), staleBeforeUs) == all
        decreases |rest|
      {
        ghost var before := AsCapture();
        var captured := NextStamp(spans, frameEndUs);
        ghost var piece := if captured >= staleBeforeUs then [Sent(rest[0].bytes, captured)] else [];
        if captured >= staleBeforeUs {
          sent := sent + [Sent(rest[0].bytes, captured)];
        } else {
          ConcatEmpty(sent);
        }
        ConsumeSamples(f.chunkSamples);
        frameEndUs := captured + rest[0].durationUs;
        assert AsCapture() == Stepped(f, before, rest[0]);
        FreshStep(f, before, rest, staleBeforeUs);
        ConcatAssociates(sent[..|sent| - |piece|], piece,
          Fresh(rest[1..], Stamps(f, AsCapture(), rest[1..]), staleBeforeUs));
        rest := rest[1..];
      }
      ConcatEmpty(sent);
    }

    method ConsumeSamples(count: nat)
      modifies this`spans
      ensures spans == Consumed(f.rate, old(spans), count)
    {
      var samples: nat := count;
      while samples > 0 && spans != []
        invariant Consumed(f.rate, spans, samples) == Consumed(f.rate, old(spans), count)
        decreases |spans|, samples
      {
        var head := spans[0];
        if samples >= head.samples {
          spans := spans[1..];
          samples := samples - head.samples;
        } else {
          spans := [Span(head.samples - samples, head.timestampUs + Duration(samples, f.rate))] + spans[1..];
          samples := 0;
        }
      }
    }
  }

  ghost predicate SentAre(f: Format, c: Capture, pcm: seq<Byte>, anchorUs: int, nowUs: int, sent: seq<Sent>) {
    if !Takes(f, pcm, anchorUs, nowUs) then sent == []
    else
      var frames := Processed(f, c.encoder, pcm, anchorUs).1;
      var stamps := FedStamps(f, c, pcm, anchorUs, nowUs);
      |stamps| == |frames| && sent == Fresh(frames, stamps, nowUs - MAX_CAPTURE_BACKLOG_US)
  }

  lemma FreshStep(f: Format, c: Capture, frames: seq<Frame>, staleBeforeUs: int)
    requires frames != []
    ensures var after := Stepped(f, c, frames[0]);
      && |Stamps(f, c, frames)| == |frames| && |Stamps(f, after, frames[1..])| == |frames[1..]|
      && Fresh(frames, Stamps(f, c, frames), staleBeforeUs)
         == (if NextStamp(c.spans, c.frameEndUs) >= staleBeforeUs
           then [Sent(frames[0].bytes, NextStamp(c.spans, c.frameEndUs))] else [])
            + Fresh(frames[1..], Stamps(f, after, frames[1..]), staleBeforeUs)
  {
    StampCount(f, c, frames);
    StampCount(f, Stepped(f, c, frames[0]), frames[1..]);
    assert Stamps(f, c, frames)[1..] == Stamps(f, Stepped(f, c, frames[0]), frames[1..]);
  }

  // ---------------------------------------------------------------- capture times

  datatype Chunk = Chunk(samples: Positive, anchorUs: int)

  /** The samples of all chunks. */
  function Total(chunks: seq<Chunk>): nat {
    if chunks == [] then 0 else Total(chunks[..|chunks| - 1]) + chunks[|chunks| - 1].samples
  }

  /** The position of the first sample of a frame. */
  function FrameStart(f: Format, n: nat): nat { if n == 0 then 0 else FrameStart(f, n - 1) + f.chunkSamples }

  lemma {:induction false} JoinStarts(f: Format, m: nat, n: nat)
    ensures FrameStart(f, m + n) == FrameStart(f, m) + FrameStart(f, n)
    decreases n
  {
    if n > 0 { JoinStarts(f, m, n - 1); }
  }

  /** The stamp of frame `n` in a chunk whose samples start at `start`: each boundary passed adds whole microseconds. */
  function StampIn(f: Format, anchorUs: int, start: nat, n: nat): int
    requires start <= FrameStart(f, n)
  {
    if FrameStart(f, n) == start then anchorUs
    else if FrameStart(f, n - 1) <= start then anchorUs + Duration(FrameStart(f, n) - start, f.rate)
    else StampIn(f, anchorUs, start, n - 1) + Duration(f.chunkSamples, f.rate)
  }

  /** What frame `n` leaves queued of a chunk that starts at `start`. */
  function Left(f: Format, chunk: Chunk, start: nat, n: nat): seq<Span> {
    var end := start + chunk.samples;
    if end <= FrameStart(f, n) then []
    else if FrameStart(f, n) <= start then [Span(chunk.samples, chunk.anchorUs)]
    else [Span(end - FrameStart(f, n), StampIn(f, chunk.anchorUs, start, n))]
  }

  /** The spans queued when frame `n` is next. */
  function SpansAt(f: Format, chunks: seq<Chunk>, n: nat): seq<Span> {
    if chunks == [] then []
    else
      var front, last := chunks[..|chunks| - 1], chunks[|chunks| - 1];
      SpansAt(f, front, n) + Left(f, last, Total(front), n)
  }

  /** The stamp of frame `n`: that of the chunk which holds its first sample. */
  function StampOf(f: Format, chunks: seq<Chunk>, n: nat): int {
    if chunks == [] then 0
    else
      var front, last := chunks[..|chunks| - 1], chunks[|chunks| - 1];
      if FrameStart(f, n) < Total(front) then StampOf(f, front, n) else StampIn(f, last.anchorUs, Total(front), n)
  }

  /** Whether a stamp is right for the frame of a given number. */
  ghost function Right(f: Format, chunks: seq<Chunk>): (nat, int) -> bool {
    (n: nat, stampUs: int) => stampUs == StampOf(f, chunks, n)
  }

  /** Every stamp passes, for the frames numbered from `n` on. */
  ghost predicate Each(right: (nat, int) -> bool, n: nat, stamps: seq<int>) {
    forall i: nat :: i < |stamps| ==> right(n + i, stamps[i])
  }

  lemma EachCons(right: (nat, int) -> bool, n: nat, first: int, rest: seq<int>)
    requires right(n, first) && Each(right, n + 1, rest)
    ensures Each(right, n, [first] + rest)
  {
    forall i: nat | i < |rest| + 1 ensures right(n + i, ([first] + rest)[i]) {
      if i > 0 { assert right(n + 1 + (i - 1), rest[i - 1]); }
    }
  }

  lemma EachJoin(right: (nat, int) -> bool, a: seq<int>, b: seq<int>)
    requires Each(right, 0, a) && Each(right, |a|, b)
    ensures Each(right, 0, a + b)
  {
    forall i: nat | i < |a + b| ensures right(i, (a + b)[i]) {
      if i < |a| { assert right(0 + i, a[i]); } else { assert right(|a| + (i - |a|), b[i - |a|]); }
    }
  }

  function SpanSamples(spans: seq<Span>): nat {
    if spans == [] then 0 else spans[0].samples + SpanSamples(spans[1..])
  }

  lemma {:induction false} SpanSamplesJoin(a: seq<Span>, b: seq<Span>)
    ensures SpanSamples(a + b) == SpanSamples(a) + SpanSamples(b)
    decreases |a|
  {
    if a == [] {
      ConcatEmpty(b);
    } else {
      assert (a + b)[1..] == a[1..] + b;
      SpanSamplesJoin(a[1..], b);
    }
  }

  lemma {:induction false} ConsumedJoin(rate: Positive, a: seq<Span>, b: seq<Span>, samples: nat)
    ensures samples >= SpanSamples(a) ==> Consumed(rate, a + b, samples) == Consumed(rate, b, samples - SpanSamples(a))
    ensures samples < SpanSamples(a) ==> Consumed(rate, a + b, samples) == Consumed(rate, a, samples) + b
    decreases |a|
  {
    if a == [] {
      ConcatEmpty(b);
    } else if samples >= a[0].samples {
      assert (a + b)[1..] == a[1..] + b;
      ConsumedJoin(rate, a[1..], b, samples - a[0].samples);
    } else {
      assert (a + b)[1..] == a[1..] + b;
    }
  }

  /** The queue holds the samples from frame `n` on. */
  lemma {:induction false} SpansAtTotal(f: Format, chunks: seq<Chunk>, n: nat)
    ensures SpanSamples(SpansAt(f, chunks, n)) == Max(0, Total(chunks) - FrameStart(f, n))
    decreases |chunks|
  {
    if chunks != [] {
      var front, last := chunks[..|chunks| - 1], chunks[|chunks| - 1];
      SpansAtTotal(f, front, n);
      SpanSamplesJoin(SpansAt(f, front, n), Left(f, last, Total(front), n));
    }
  }

  lemma NoSamplesLeft(spans: seq<Span>)
    requires SpanSamples(spans) == 0
    ensures spans == []
  {
  }

  /** Consuming the part of frame `n` that lies in a chunk. */
  lemma LeftStep(f: Format, chunk: Chunk, start: nat, n: nat)
    requires start <= FrameStart(f, n + 1)
    ensures Consumed(f.rate, Left(f, chunk, start, n), FrameStart(f, n + 1) - Max(FrameStart(f, n), start))
      == Left(f, chunk, start, n + 1)
  {
  }

  /** Consuming a frame leaves the queue of the next one. */
  lemma {:induction false} ConsumedIsNext(f: Format, chunks: seq<Chunk>, n: nat)
    ensures Consumed(f.rate, SpansAt(f, chunks, n), f.chunkSamples) == SpansAt(f, chunks, n + 1)
    decreases |chunks|
  {
    if chunks != [] {
      var front, last := chunks[..|chunks| - 1], chunks[|chunks| - 1];
      var start, left := Total(front), Left(f, last, Total(front), n);
      ConsumedIsNext(f, front, n);
      SpansAtTotal(f, front, n);
      SpansAtTotal(f, front, n + 1);
      ConsumedJoin(f.rate, SpansAt(f, front, n), left, f.chunkSamples);
      if start <= FrameStart(f, n + 1) {
        LeftStep(f, last, start, n);
        NoSamplesLeft(SpansAt(f, front, n + 1));
        ConcatEmpty(Left(f, last, start, n + 1));
      }
    }
  }

  /** While captured samples last, the head of the queue stamps the next frame: the fallback is never taken. */
  lemma {:induction false} HeadStamps(f: Format, chunks: seq<Chunk>, n: nat)
    requires FrameStart(f, n) < Total(chunks)
    ensures SpansAt(f, chunks, n) != [] && SpansAt(f, chunks, n)[0].timestampUs == StampOf(f, chunks, n)
    decreases |chunks|
  {
    var front := chunks[..|chunks| - 1];
    if FrameStart(f, n) < Total(front) {
      HeadStamps(f, front, n);
    } else {
      SpansAtTotal(f, front, n);
      NoSamplesLeft(SpansAt(f, front, n));
    }
  }

  /** Whether the queued spans are those of the frames from a given number on. */
  ghost function Ready(f: Format, chunks: seq<Chunk>): (seq<Span>, nat) -> bool {
    (spans: seq<Span>, n: nat) => spans == SpansAt(f, chunks, n)
  }

  /** Ready spans stamp the next frame right, and consuming it leaves them ready, while captured samples last. */
  ghost predicate StampsNext(
    f: Format, ready: (seq<Span>, nat) -> bool, right: (nat, int) -> bool, total: nat, spans: seq<Span>, n: nat)
  {
    ready(spans, n) && FrameStart(f, n + 1) <= total ==>
      spans != [] && right(n, spans[0].timestampUs) && ready(Consumed(f.rate, spans, f.chunkSamples), n + 1)
  }

  lemma SpansStampNext(f: Format, chunks: seq<Chunk>, spans: seq<Span>, n: nat)
    ensures StampsNext(f, Ready(f, chunks), Right(f, chunks), Total(chunks), spans, n)
  {
    if Ready(f, chunks)(spans, n) && FrameStart(f, n + 1) <= Total(chunks) {
      HeadStamps(f, chunks, n);
      ConsumedIsNext(f, chunks, n);
    }
  }

  /** So a run of frames whose samples were all captured is stamped right, up to frame `m`. */
  lemma {:induction false} FramesStamped(
    f: Format, ready: (seq<Span>, nat) -> bool, right: (nat, int) -> bool, total: nat, c: Capture, frames: seq<Frame>,
      n: nat, m: nat)
    requires forall spans, k :: StampsNext(f, ready, right, total, spans, k)
    requires m == n + |frames| && ready(c.spans, n) && FrameStart(f, m) <= total
    ensures ready(AfterFrames(f, c, frames).spans, m)
    ensures Each(right, n, Stamps(f, c, frames))
    decreases |frames|
  {
    if frames != [] {
      JoinStarts(f, n + 1, |frames| - 1);
      assert StampsNext(f, ready, right, total, c.spans, n);
      FramesStamped(f, ready, right, total, Stepped(f, c, frames[0]), frames[1..], n + 1, m);
      EachCons(right, n, NextStamp(c.spans, c.frameEndUs), Stamps(f, Stepped(f, c, frames[0]), frames[1..]));
    }
  }

  lemma StampsAppended(
    f: Format, ready: (seq<Span>, nat) -> bool, right: (nat, int) -> bool, total: nat, stamps: seq<int>, c: Capture,
      frames: seq<Frame>)
    requires forall spans, k :: StampsNext(f, ready, right, total, spans, k)
    requires ready(c.spans, |stamps|) && FrameStart(f, |stamps| + |frames|) <= total && Each(right, 0, stamps)
    ensures var all := stamps + Stamps(f, c, frames);
      && FrameStart(f, |all|) <= total
      && ready(AfterFrames(f, c, frames).spans, |all|)
      && Each(right, 0, all)
  {
    StampCount(f, c, frames);
    FramesStamped(f, ready, right, total, c, frames, |stamps|, |stamps + Stamps(f, c, frames)|);
    EachJoin(right, stamps, Stamps(f, c, frames));
  }

  /** Later chunks do not change the stamps of frames whose samples were all captured. */
  lemma RightStable(f: Format, chunks: seq<Chunk>, chunk: Chunk, stamps: seq<int>)
    requires Each(Right(f, chunks), 0, stamps) && FrameStart(f, |stamps|) <= Total(chunks)
    ensures Each(Right(f, chunks + [chunk]), 0, stamps)
  {
    assert (chunks + [chunk])[..|chunks|] == chunks;
    forall i: nat | i < |stamps| ensures Right(f, chunks + [chunk])(0 + i, stamps[i]) {
      assert Right(f, chunks)(0 + i, stamps[i]);
      JoinStarts(f, i, |stamps| - i);
    }
  }

  /** The bytes of a number of samples. */
  function SampleBytes(f: Format, samples: nat): nat {
    if samples == 0 then 0 else SampleBytes(f, samples - 1) + f.stride
  }

  lemma {:induction false} SampleBytesAre(f: Format, samples: nat)
    ensures SampleBytes(f, samples) == samples * f.stride
  {
    if samples > 0 { SampleBytesAre(f, samples - 1); }
  }

  lemma {:induction false} SampleBytesJoin(f: Format, m: nat, n: nat)
    ensures SampleBytes(f, m + n) == SampleBytes(f, m) + SampleBytes(f, n)
    decreases n
  {
    if n > 0 { SampleBytesJoin(f, m, n - 1); }
  }

  lemma FrameSizeIs(f: Format)
    ensures FrameSize(f) == SampleBytes(f, f.chunkSamples)
  {
    SampleBytesAre(f, f.chunkSamples);
  }

  lemma {:induction false} FrameCount(f: Format, data: seq<Byte>, samples: nat)
    requires |data| == SampleBytes(f, samples)
    ensures FrameStart(f, |Frames(f, data)|) <= samples
    ensures |Rest(f, data)| == SampleBytes(f, samples - FrameStart(f, |Frames(f, data)|))
    decreases |data|
  {
    var s := f.chunkSamples;
    FrameSizeIs(f);
    if samples >= s {
      SampleBytesJoin(f, samples - s, s);
      var rest := data[FrameSize(f)..];
      assert |rest| == SampleBytes(f, samples - s);
      FrameCount(f, rest, samples - s);
      assert |Frames(f, data)| == |Frames(f, rest)| + 1;
    } else {
      SampleBytesJoin(f, samples, s - samples);
      SampleBytesPositive(f, s - samples);
    }
  }

  lemma SampleBytesPositive(f: Format, samples: nat)
    ensures samples > 0 ==> SampleBytes(f, samples) > 0
  {
  }

  datatype Input = Input(pcm: seq<Byte>, anchorUs: int, nowUs: int)

  /** A run of feeds: the chunks taken, and the stamp of every frame. */
  datatype Record = Record(state: Capture, chunks: seq<Chunk>, stamps: seq<int>)

  function Recorded(f: Format, r: Record, input: Input): Record {
    var c := r.state;
    DivisionBounds(|input.pcm|, f.stride);
    Record(
      Fed(f, c, input.pcm, input.anchorUs, input.nowUs),
      if Takes(f, input.pcm, input.anchorUs, input.nowUs)
        then r.chunks + [Chunk(|input.pcm| / f.stride, input.anchorUs)] else r.chunks,
      r.stamps + FedStamps(f, c, input.pcm, input.anchorUs, input.nowUs))
  }

  function Run(f: Format, inputs: seq<Input>): Record {
    if inputs == [] then Record(Capture([], 0, IDLE), [], [])
    else Recorded(f, Run(f, inputs[..|inputs| - 1]), inputs[|inputs| - 1])
  }

  /** The queue and the stamps are those of the chunks taken. */
  ghost predicate Faithful(f: Format, r: Record) {
    && FrameStart(f, |r.stamps|) <= Total(r.chunks)
    && Ready(f, r.chunks)(r.state.spans, |r.stamps|)
    && Each(Right(f, r.chunks), 0, r.stamps)
  }

  /** The encoder has buffered the samples of all chunks that are not in a frame yet. */
  predicate Buffered(f: Format, r: Record) {
    FrameStart(f, |r.stamps|) <= Total(r.chunks) &&
      |r.state.encoder.buffer| == SampleBytes(f, Total(r.chunks) - FrameStart(f, |r.stamps|))
  }

  lemma RecordedBuffered(f: Format, r: Record, input: Input)
    requires Buffered(f, r)
    ensures Buffered(f, Recorded(f, r, input))
    ensures Takes(f, input.pcm, input.anchorUs, input.nowUs) ==>
      Total(Recorded(f, r, input).chunks) >=
        FrameStart(f, |r.stamps| + |Processed(f, r.state.encoder, input.pcm, input.anchorUs).1|)
  {
    if Takes(f, input.pcm, input.anchorUs, input.nowUs) {
      DivisionBounds(|input.pcm|, f.stride);
      var chunk := Chunk(|input.pcm| / f.stride, input.anchorUs);
      var queued := Queued(f, r.state, input.pcm, input.anchorUs);
      var frames := Processed(f, r.state.encoder, input.pcm, input.anchorUs).1;
      TotalAppend(r.chunks, chunk);
      BufferedLength(f, r.state.encoder.buffer, input.pcm, Total(r.chunks) - FrameStart(f, |r.stamps|));
      RestCounted(f, r.state.encoder.buffer + input.pcm, Total(r.chunks + [chunk]), |r.stamps|);
      StampCount(f, queued, frames);
      EncoderUnchanged(f, queued, frames);
    } else {
      ConcatEmpty(r.stamps);
    }
  }

  lemma TotalAppend(chunks: seq<Chunk>, chunk: Chunk)
    ensures Total(chunks + [chunk]) == Total(chunks) + chunk.samples
  {
    assert (chunks + [chunk])[..|chunks|] == chunks;
  }

  lemma RecordedFaithful(f: Format, r: Record, input: Input)
    requires Faithful(f, r) && Buffered(f, r)
    ensures Faithful(f, Recorded(f, r, input))
  {
    RecordedBuffered(f, r, input);
    if Takes(f, input.pcm, input.anchorUs, input.nowUs) {
      DivisionBounds(|input.pcm|, f.stride);
      var chunk := Chunk(|input.pcm| / f.stride, input.anchorUs);
      QueuedSpans(f, r.chunks, chunk, |r.stamps|);
      RightStable(f, r.chunks, chunk, r.stamps);
      FramesFaithful(f, r.chunks + [chunk], r.stamps, Queued(f, r.state, input.pcm, input.anchorUs),
                     Processed(f, r.state.encoder, input.pcm, input.anchorUs).1);
    } else {
      ConcatEmpty(r.stamps);
    }
  }

  lemma QueuedSpans(f: Format, chunks: seq<Chunk>, chunk: Chunk, n: nat)
    requires FrameStart(f, n) <= Total(chunks)
    ensures SpansAt(f, chunks + [chunk], n) == SpansAt(f, chunks, n) + [Span(chunk.samples, chunk.anchorUs)]
  {
    assert (chunks + [chunk])[..|chunks|] == chunks;
  }

  lemma BufferedLength(f: Format, buffer: seq<Byte>, pcm: seq<Byte>, samples: nat)
    requires |buffer| == SampleBytes(f, samples) && |pcm| % f.stride == 0
    ensures |buffer + pcm| == SampleBytes(f, samples + |pcm| / f.stride)
  {
    SampleBytesAre(f, |pcm| / f.stride);
    SampleBytesJoin(f, samples, |pcm| / f.stride);
  }

  lemma FramesFaithful(f: Format, chunks: seq<Chunk>, stamps: seq<int>, queued: Capture, frames: seq<Frame>)
    requires Each(Right(f, chunks), 0, stamps) && Ready(f, chunks)(queued.spans, |stamps|)
    requires FrameStart(f, |stamps| + |frames|) <= Total(chunks)
    ensures Faithful(f, Record(AfterFrames(f, queued, frames), chunks, stamps + Stamps(f, queued, frames)))
  {
    forall spans, k ensures StampsNext(f, Ready(f, chunks), Right(f, chunks), Total(chunks), spans, k) {
      SpansStampNext(f, chunks, spans, k);
    }
    StampsAppended(f, Ready(f, chunks), Right(f, chunks), Total(chunks), stamps, queued, frames);
  }

  lemma RestCounted(f: Format, data: seq<Byte>, total: nat, n: nat)
    requires FrameStart(f, n) <= total && |data| == SampleBytes(f, total - FrameStart(f, n))
    ensures FrameStart(f, n + |Frames(f, data)|) <= total
    ensures |Rest(f, data)| == SampleBytes(f, total - FrameStart(f, n + |Frames(f, data)|))
  {
    FrameCount(f, data, total - FrameStart(f, n));
    JoinStarts(f, n, |Frames(f, data)|);
  }

  lemma {:induction false} EncoderUnchanged(f: Format, c: Capture, frames: seq<Frame>)
    ensures AfterFrames(f, c, frames).encoder == c.encoder
    decreases |frames|
  {
    if frames != [] { EncoderUnchanged(f, Stepped(f, c, frames[0]), frames[1..]); }
  }

  /** Over every run of feeds the stamps are determined by the chunks taken, however they line up with the frames. */
  lemma {:induction false} RunFaithful(f: Format, inputs: seq<Input>)
    ensures Faithful(f, Run(f, inputs)) && Buffered(f, Run(f, inputs))
    decreases |inputs|
  {
    if inputs != [] {
      RunFaithful(f, inputs[..|inputs| - 1]);
      RecordedBuffered(f, Run(f, inputs[..|inputs| - 1]), inputs[|inputs| - 1]);
      RecordedFaithful(f, Run(f, inputs[..|inputs| - 1]), inputs[|inputs| - 1]);
    }
  }

  // Ticks of 1/rate microseconds by which a stamp is early of the exact time of `position` in its chunk.
  function Early(f: Format, anchorUs: int, start: nat, position: nat, stampUs: int): int
    requires start <= position
  {
    (anchorUs - stampUs) * f.rate + (position - start) * MICROSECONDS
  }

  /** Frame boundaries in the samples after `start`, up to the start of frame `n`. */
  function Boundaries(f: Format, start: nat, n: nat): int { n - start / f.chunkSamples }

  /** Within its chunk a stamp is never late, and early by less than a microsecond per frame boundary passed. */
  lemma {:induction false} StampAccurate(f: Format, anchorUs: int, start: nat, n: nat)
    requires start <= FrameStart(f, n)
    ensures var early := Early(f, anchorUs, start, FrameStart(f, n), StampIn(f, anchorUs, start, n));
      if start == FrameStart(f, n) then early == 0
      else 0 <= early < Boundaries(f, start, n) * f.rate
    decreases n
  {
    if start < FrameStart(f, n) {
      if FrameStart(f, n - 1) <= start {
        FirstBoundary(f, start, n);
        DivisionBounds((FrameStart(f, n) - start) * MICROSECONDS, f.rate);
      } else {
        StampAccurate(f, anchorUs, start, n - 1);
        EarlyAdvances(f, anchorUs, start, FrameStart(f, n - 1), StampIn(f, anchorUs, start, n - 1),
          Boundaries(f, start, n - 1));
      }
    }
  }

  lemma EarlyAdvances(f: Format, anchorUs: int, start: nat, position: nat, stampUs: int, b: int)
    requires start <= position && 0 <= Early(f, anchorUs, start, position, stampUs) < b * f.rate
    ensures 0 <= Early(f, anchorUs, start, position + f.chunkSamples, stampUs + Duration(f.chunkSamples, f.rate))
      < (b + 1) * f.rate
  {
    var d := Duration(f.chunkSamples, f.rate);
    DivisionBounds(f.chunkSamples * MICROSECONDS, f.rate);
    assert (anchorUs - (stampUs + d)) * f.rate == (anchorUs - stampUs) * f.rate - d * f.rate;
    assert (b + 1) * f.rate == b * f.rate + f.rate;
  }

  lemma FirstBoundary(f: Format, start: nat, n: nat)
    requires n > 0 && FrameStart(f, n - 1) <= start < FrameStart(f, n)
    ensures Boundaries(f, start, n) == 1
  {
    FrameStartIs(f, n - 1);
    QuotientIs(start, f.chunkSamples, n - 1, start - FrameStart(f, n - 1));
  }

  lemma {:induction false} FrameStartIs(f: Format, n: nat)
    ensures FrameStart(f, n) == n * f.chunkSamples
  {
    if n > 0 { FrameStartIs(f, n - 1); }
  }

  /** The chunk `j` holds a sample position. */
  predicate Holds(chunks: seq<Chunk>, j: nat, position: nat) {
    j < |chunks| && Total(chunks[..j]) <= position < Total(chunks[..j + 1])
  }

  lemma {:induction false} StampHolder(f: Format, chunks: seq<Chunk>, n: nat) returns (j: nat)
    requires FrameStart(f, n) < Total(chunks)
    ensures Holds(chunks, j, FrameStart(f, n))
    ensures StampOf(f, chunks, n) == StampIn(f, chunks[j].anchorUs, Total(chunks[..j]), n)
    decreases |chunks|
  {
    var front := chunks[..|chunks| - 1];
    if FrameStart(f, n) < Total(front) {
      j := StampHolder(f, front, n);
      assert front[..j] == chunks[..j] && front[..j + 1] == chunks[..j + 1];
    } else {
      j := |chunks| - 1;
      assert chunks[..j + 1] == chunks;
    }
  }

  /**
   Over every run of feeds each frame is stamped from the chunk that holds its first sample: never later
   than that sample's exact time, and early by less than a microsecond per frame boundary inside the chunk.
   */
  lemma CaptureTimesAccurate(f: Format, inputs: seq<Input>, i: nat) returns (j: nat)
    requires i < |Run(f, inputs).stamps|
    ensures var r := Run(f, inputs);
      && Holds(r.chunks, j, FrameStart(f, i))
      && var start := Total(r.chunks[..j]);
        var early := Early(f, r.chunks[j].anchorUs, start, FrameStart(f, i), r.stamps[i]);
        if start == FrameStart(f, i) then early == 0 else 0 <= early < Boundaries(f, start, i) * f.rate
  {
    var r := Run(f, inputs);
    RunFaithful(f, inputs);
    JoinStarts(f, i, |r.stamps| - i);
    assert Right(f, r.chunks)(0 + i, r.stamps[i]);
    j := StampHolder(f, r.chunks, i);
    StampAccurate(f, r.chunks[j].anchorUs, Total(r.chunks[..j]), i);
  }

  lemma QueueHoldsBuffer(f: Format, chunks: seq<Chunk>, n: nat, bytes: nat)
    requires FrameStart(f, n) <= Total(chunks) && bytes == SampleBytes(f, Total(chunks) - FrameStart(f, n))
    ensures bytes == SpanSamples(SpansAt(f, chunks, n)) * f.stride
  {
    SpansAtTotal(f, chunks, n);
    SampleBytesAre(f, Total(chunks) - FrameStart(f, n));
  }

  /** The queued spans always hold as many samples as the encoder has buffered. */
  lemma SpansMatchBuffer(f: Format, inputs: seq<Input>)
    ensures var c := Run(f, inputs).state; |c.encoder.buffer| == SpanSamples(c.spans) * f.stride
  {
    var r := Run(f, inputs);
    RunFaithful(f, inputs);
    assert r.state.spans == SpansAt(f, r.chunks, |r.stamps|);
    QueueHoldsBuffer(f, r.chunks, |r.stamps|, |r.state.encoder.buffer|);
  }

  /** A frame flushed from a partly filled buffer is stamped like any other. */
  lemma FlushStamped(f: Format, inputs: seq<Input>)
    requires Run(f, inputs).state.encoder.buffer != []
    ensures var r := Run(f, inputs);
      r.state.spans != [] && NextStamp(r.state.spans, r.state.frameEndUs) == StampOf(f, r.chunks, |r.stamps|)
  {
    var r := Run(f, inputs);
    RunFaithful(f, inputs);
    assert r.state.spans == SpansAt(f, r.chunks, |r.stamps|);
    HeadStamps(f, r.chunks, |r.stamps|);
  }
}
