/**
 What source capture sends of what it is fed: the frames of all PCM that came in time, with their stamps,
 but for those captured too long ago.
 */
module CaptureSends {
  import opened Common
  import opened Division
  import opened SourceCapture
  import P = PcmFraming

  /** Whole frames that ended no more than half a second ago. */
  predicate InTime(f: P.Format, input: Input) {
    && input.pcm != [] && |input.pcm| % f.stride == 0
    && input.anchorUs + Duration(|input.pcm| / f.stride, f.rate) >= input.nowUs - 500_000
  }

  /** The PCM that came in time. */
  function Heard(f: P.Format, inputs: seq<Input>): seq<Byte> {
    if inputs == [] then []
    else
      var before, input := Heard(f, inputs[..|inputs| - 1]), inputs[|inputs| - 1];
      if InTime(f, input) then before + input.pcm else before
  }

  function HeardChunks(f: P.Format, inputs: seq<Input>): seq<Chunk> {
    if inputs == [] then []
    else
      var before, input := HeardChunks(f, inputs[..|inputs| - 1]), inputs[|inputs| - 1];
      DivisionBounds(|input.pcm|, f.stride);
      if InTime(f, input) then before + [Chunk(|input.pcm| / f.stride, input.anchorUs)] else before
  }

  lemma ProcessedParts(f: P.Format, p: P.Pcm, pcm: seq<Byte>, timestampUs: int)
    ensures P.Processed(f, p, pcm, timestampUs).0.buffer == P.Rest(f, p.buffer + pcm)
    ensures P.BytesOf(P.Processed(f, p, pcm, timestampUs).1) == P.Frames(f, p.buffer + pcm)
  {
    P.EmittedParts(f, P.Filled(p, pcm, timestampUs), p.buffer + pcm);
  }

  lemma InputHeard(f: P.Format, r: Record, heard: seq<Byte>, input: Input)
    requires r.state.encoder.buffer == P.Rest(f, heard) && |r.stamps| == |P.Frames(f, heard)| && InTime(f, input)
    ensures var next := Recorded(f, r, input);
      && next.state.encoder.buffer == P.Rest(f, heard + input.pcm)
      && |next.stamps| == |P.Frames(f, heard + input.pcm)|
  {
    var c := r.state;
    DivisionBounds(|input.pcm|, f.stride);
    var queued := Queued(f, c, input.pcm, input.anchorUs);
    var frames := P.Processed(f, c.encoder, input.pcm, input.anchorUs).1;
    ProcessedParts(f, c.encoder, input.pcm, input.anchorUs);
    P.FramesSplit(f, heard, input.pcm);
    StampCount(f, queued, frames);
    EncoderUnchanged(f, queued, frames);
    assert |P.BytesOf(frames)| == |frames|;
  }

  /**
   Over every run of feeds just the PCM that came in time is taken, and all of it: chunk by chunk, and
   as far as its frames and what is left of them in the encoder.
   */
  lemma {:induction false} TakesWhatIsInTime(f: P.Format, inputs: seq<Input>)
    ensures var r := Run(f, inputs);
      && r.chunks == HeardChunks(f, inputs)
      && r.state.encoder.buffer == P.Rest(f, Heard(f, inputs))
      && |r.stamps| == |P.Frames(f, Heard(f, inputs))|
    decreases |inputs|
  {
    if inputs != [] {
      var front, input := inputs[..|inputs| - 1], inputs[|inputs| - 1];
      TakesWhatIsInTime(f, front);
      if InTime(f, input) {
        InputHeard(f, Run(f, front), Heard(f, front), input);
      } else {
        ConcatEmpty(Run(f, front).stamps);
      }
    }
  }

  /** The frames from number `n` on whose stamps are not before `bound`, in order. */
  function Picked(frames: seq<seq<Byte>>, stamps: seq<int>, n: nat, bound: int): seq<Sent>
    requires |frames| == |stamps|
    decreases |frames|
  {
    if |frames| <= n then []
    else
      var last := |frames| - 1;
      Picked(frames[..last], stamps[..last], n, bound)
      + if stamps[last] >= bound then [Sent(frames[last], stamps[last])] else []
  }

  lemma {:induction false} FreshOneMore(frames: seq<P.Frame>, stamps: seq<int>, frame: P.Frame, stamp: int, bound: int)
    requires |frames| == |stamps|
    ensures Fresh(frames + [frame], stamps + [stamp], bound)
      == Fresh(frames, stamps, bound) + (if stamp >= bound then [Sent(frame.bytes, stamp)] else [])
    decreases |frames|
  {
    var piece := if stamp >= bound then [Sent(frame.bytes, stamp)] else [];
    if frames == [] {
      assert frames + [frame] == [frame] && stamps + [stamp] == [stamp];
      assert [frame][1..] == [] && [stamp][1..] == [];
      ConcatEmpty(piece);
    } else {
      FreshOneMore(frames[1..], stamps[1..], frame, stamp, bound);
      assert (frames + [frame])[1..] == frames[1..] + [frame] && (stamps + [stamp])[1..] == stamps[1..] + [stamp];
      ConcatAssociates(if stamps[0] >= bound then [Sent(frames[0].bytes, stamps[0])] else [],
        Fresh(frames[1..], stamps[1..], bound), piece);
    }
  }

  lemma {:induction false} FreshIsPicked(
    before: seq<seq<Byte>>, earlier: seq<int>, frames: seq<P.Frame>, stamps: seq<int>, bound: int)
    requires |before| == |earlier| && |frames| == |stamps|
    ensures Fresh(frames, stamps, bound) == Picked(before + P.BytesOf(frames), earlier + stamps, |before|, bound)
    decreases |frames|
  {
    if frames == [] {
      assert |before + P.BytesOf(frames)| <= |before|;
    } else {
      var last := |frames| - 1;
      FreshIsPicked(before, earlier, frames[..last], stamps[..last], bound);
      FreshOneMore(frames[..last], stamps[..last], frames[last], stamps[last], bound);
      assert frames == frames[..last] + [frames[last]] && stamps == stamps[..last] + [stamps[last]];
      var all, times := before + P.BytesOf(frames), earlier + stamps;
      assert all[..|all| - 1] == before + P.BytesOf(frames[..last]);
      assert times[..|times| - 1] == earlier + stamps[..last];
    }
  }

  /**
   Every feed sends the frames it completes, each with its stamp and in order, but for those stamped more
   than half a second ago.
   */
  lemma SendsAllButOld(f: P.Format, inputs: seq<Input>, input: Input, sent: seq<Sent>)
    requires SentAre(f, Run(f, inputs).state, input.pcm, input.anchorUs, input.nowUs, sent)
    ensures var frames, stamps := P.Frames(f, Heard(f, inputs + [input])), Run(f, inputs + [input]).stamps;
      |stamps| == |frames| && sent == Picked(frames, stamps, |Run(f, inputs).stamps|, input.nowUs - 500_000)
  {
    var after, r := inputs + [input], Run(f, inputs);
    assert after[..|after| - 1] == inputs;
    TakesWhatIsInTime(f, inputs);
    TakesWhatIsInTime(f, after);
    var heard := Heard(f, inputs);
    if InTime(f, input) {
      var frames := P.Processed(f, r.state.encoder, input.pcm, input.anchorUs).1;
      var stamps := FedStamps(f, r.state, input.pcm, input.anchorUs, input.nowUs);
      ProcessedParts(f, r.state.encoder, input.pcm, input.anchorUs);
      P.FramesSplit(f, heard, input.pcm);
      FreshIsPicked(P.Frames(f, heard), r.stamps, frames, stamps, input.nowUs - 500_000);
    } else {
      ConcatEmpty(r.stamps);
    }
  }
}
