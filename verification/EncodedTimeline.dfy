/**
 The timeline of the FLAC and Opus encoders, which hold frames back: the first packet anchors it, and the
 pending timestamp is multiplied out from there. Whether a chunk yields a packet is a parameter.
 */
module EncodedTimeline {
  import opened Common
  import opened Division
  import opened PcmFraming

  datatype Timeline = Timeline(
    startUs: Option<int>,
    frames: nat,
    firstInputUs: Option<int>,
    chunks: nat,
    lastInputUs: Option<int>,
    residue: nat)

  const UNSTARTED := Timeline(None, 0, None, 0, None, 0)

  predicate LargeGap(t: Timeline, timestampUs: int) {
    t.lastInputUs.Some? && timestampUs - t.lastInputUs.value > RESET_GAP_US
  }

  /** What an input does to a timeline: the first one, or one long after the last, begins it. */
  function Fed(t: Timeline, timestampUs: int): Timeline {
    if LargeGap(t, timestampUs) then Timeline(None, 0, Some(timestampUs), 0, Some(timestampUs), 0)
    else t.(
      firstInputUs := if t.firstInputUs.None? then Some(timestampUs) else t.firstInputUs,
      lastInputUs := Some(timestampUs))
  }

  /** The first packet anchors the timeline, past the chunks the encoder held back and before its lookahead. */
  function Anchor(f: Format, t: Timeline, lookaheadUs: nat): int
    requires t.firstInputUs.Some? && t.chunks > 0
  {
    t.firstInputUs.value + Duration(Samples(f, t.chunks - 1), f.rate) - lookaheadUs
  }

  function Samples(f: Format, frames: nat): nat { frames * f.chunkSamples }

  function Emitting(f: Format, t: Timeline): Timeline { t.(frames := t.frames + 1, residue := Carried(f, t.residue)) }

  function Encoded(f: Format, t: Timeline, lookaheadUs: nat, packet: bool): Timeline
    requires t.firstInputUs.Some?
  {
    var counted := t.(chunks := t.chunks + 1);
    if !packet then counted
    else Emitting(f, if t.startUs.None? then counted.(startUs := Some(Anchor(f, counted, lookaheadUs))) else counted)
  }

  function Flushed(f: Format, t: Timeline, packet: bool): Timeline { if packet then Emitting(f, t) else t }

  function Pending(f: Format, t: Timeline, lookaheadUs: nat): Option<int> {
    if t.startUs.Some? then Some(t.startUs.value + Duration(Samples(f, t.frames), f.rate))
    else if t.firstInputUs.Some? then Some(t.firstInputUs.value - lookaheadUs)
    else None
  }

  class EncoderTimeline {
    const f: Format
    const lookaheadUs: nat
    var startUs: Option<int>
    var frames: nat
    var firstInputUs: Option<int>
    var chunks: nat
    var lastInputUs: Option<int>
    var residue: nat

    ghost function AsTimeline(): Timeline reads this {
      Timeline(startUs, frames, firstInputUs, chunks, lastInputUs, residue)
    }

    constructor (format: Format, lookahead: nat)
      ensures f == format && lookaheadUs == lookahead && AsTimeline() == UNSTARTED
    {
      f, lookaheadUs := format, lookahead;
      startUs, frames, firstInputUs, chunks, lastInputUs, residue := None, 0, None, 0, None, 0;
    }

    method Feed(timestampUs: int)
      modifies this
      ensures AsTimeline() == Fed(old(AsTimeline()), timestampUs)
    {
      if lastInputUs.Some? && timestampUs - lastInputUs.value > RESET_GAP_US {
        startUs, frames, firstInputUs, chunks, residue := None, 0, Some(timestampUs), 0, 0;
      }
      lastInputUs := Some(timestampUs);
      if firstInputUs.None? { firstInputUs := Some(timestampUs); }
    }

    method Encode(packet: bool) returns (durationUs: Option<nat>)
      requires firstInputUs.Some?
      modifies this
      ensures AsTimeline() == Encoded(f, old(AsTimeline()), lookaheadUs, packet)
      ensures durationUs == if packet then Some(Delta(f, old(residue))) else None
    {
      chunks := chunks + 1;
      if !packet { return None; }
      if startUs.None? {
        startUs := Some(firstInputUs.value + Duration(Samples(f, chunks - 1), f.rate) - lookaheadUs);
      }
      durationUs := Some(Delta(f, residue));
      residue := Carried(f, residue);
      frames := frames + 1;
    }

    method FlushChunk(packet: bool) returns (durationUs: Option<nat>)
      modifies this
      ensures AsTimeline() == Flushed(f, old(AsTimeline()), packet)
      ensures durationUs == if packet then Some(Delta(f, old(residue))) else None
    {
      if !packet { return None; }
      frames := frames + 1;
      durationUs := Some(Delta(f, residue));
      residue := Carried(f, residue);
    }
  }

  // ---------------------------------------------------------------- runs

  datatype Event = Feed(timestampUs: int) | Encode(packet: bool) | Flush(packet: bool)

  /** The durations of the frames emitted since the timeline last started. */
  datatype Emission = Emission(timeline: Timeline, durations: seq<nat>)

  predicate Enabled(l: Emission, step: Event) { step.Encode? ==> l.timeline.firstInputUs.Some? }

  function Advanced(f: Format, lookaheadUs: nat, l: Emission, step: Event): Emission
    requires Enabled(l, step)
  {
    var t := l.timeline;
    match step
    case Feed(timestampUs) => Emission(Fed(t, timestampUs), if LargeGap(t, timestampUs) then [] else l.durations)
    case Encode(packet) =>
      Emission(Encoded(f, t, lookaheadUs, packet), if packet then l.durations + [Delta(f, t.residue)] else l.durations)
    case Flush(packet) =>
      Emission(Flushed(f, t, packet), if packet then l.durations + [Delta(f, t.residue)] else l.durations)
  }

  function Run(f: Format, lookaheadUs: nat, steps: seq<Event>): Option<Emission> {
    if steps == [] then Some(Emission(UNSTARTED, []))
    else
      var before, step := Run(f, lookaheadUs, steps[..|steps| - 1]), steps[|steps| - 1];
      if before.Some? && Enabled(before.value, step) then Some(Advanced(f, lookaheadUs, before.value, step)) else None
  }

  /** The emitted durations carry the residue exactly. */
  predicate Carries(f: Format, l: Emission) {
    && l.timeline.frames == |l.durations|
    && l.durations == Durations(f, 0, |l.durations|)
    && l.timeline.residue == ResidueAfter(f, 0, |l.durations|)
  }

  lemma OneMoreDuration(f: Format, n: nat)
    ensures Durations(f, 0, n + 1) == Durations(f, 0, n) + [Delta(f, ResidueAfter(f, 0, n))]
    ensures ResidueAfter(f, 0, n + 1) == Carried(f, ResidueAfter(f, 0, n))
  {
    DurationsSplit(f, 0, n, 1);
    var r := ResidueAfter(f, 0, n);
    assert Durations(f, r, 1) == [Delta(f, r)] + Durations(f, Carried(f, r), 0);
    assert ResidueAfter(f, r, 1) == ResidueAfter(f, Carried(f, r), 0);
  }

  lemma EmittingCarries(f: Format, l: Emission, t: Timeline)
    requires Carries(f, l) && t.frames == l.timeline.frames && t.residue == l.timeline.residue
    ensures Carries(f, Emission(Emitting(f, t), l.durations + [Delta(f, t.residue)]))
  {
    OneMoreDuration(f, |l.durations|);
  }

  lemma {:induction false} RunCarries(f: Format, lookaheadUs: nat, steps: seq<Event>)
    requires Run(f, lookaheadUs, steps).Some?
    ensures Carries(f, Run(f, lookaheadUs, steps).value)
    decreases |steps|
  {
    if steps != [] {
      var before, step := Run(f, lookaheadUs, steps[..|steps| - 1]).value, steps[|steps| - 1];
      RunCarries(f, lookaheadUs, steps[..|steps| - 1]);
      if step.Encode? && step.packet {
        var counted := before.timeline.(chunks := before.timeline.chunks + 1);
        var anchored := counted.(startUs := Some(Anchor(f, counted, lookaheadUs)));
        EmittingCarries(f, before, if before.timeline.startUs.None? then anchored else counted);
      } else if step.Flush? && step.packet {
        EmittingCarries(f, before, before.timeline);
      }
    }
  }

  lemma DurationsAddUp(f: Format, l: Emission)
    requires Carries(f, l)
    ensures Sum(l.durations) == Duration(Samples(f, l.timeline.frames), f.rate)
  {
    var n := |l.durations|;
    DurationsExact(f, 0, n);
    TicksAre(f, n);
    assert n * (f.chunkSamples * MICROSECONDS) == n * f.chunkSamples * MICROSECONDS;
  }

  /** Over every run, once anchored, the multiplied-out pending timestamp is the anchor plus all emitted durations. */
  lemma PendingFollowsDurations(f: Format, lookaheadUs: nat, steps: seq<Event>)
    requires Run(f, lookaheadUs, steps).Some? && Run(f, lookaheadUs, steps).value.timeline.startUs.Some?
    ensures var l := Run(f, lookaheadUs, steps).value;
      Pending(f, l.timeline, lookaheadUs) == Some(l.timeline.startUs.value + Sum(l.durations))
  {
    RunCarries(f, lookaheadUs, steps);
    DurationsAddUp(f, Run(f, lookaheadUs, steps).value);
  }

  /**
   Before that, the pending timestamp is the first input's, less the lookahead, plus the emitted durations
   exactly while the emitted frames last under a microsecond: a flush that emits before any packet did
   leaves the pending timestamp behind.
   */
  lemma UnanchoredPendingIff(f: Format, lookaheadUs: nat, steps: seq<Event>)
    requires Run(f, lookaheadUs, steps).Some?
    requires var t := Run(f, lookaheadUs, steps).value.timeline; t.startUs.None? && t.firstInputUs.Some?
    ensures var l := Run(f, lookaheadUs, steps).value;
      (Pending(f, l.timeline, lookaheadUs) == Some(l.timeline.firstInputUs.value - lookaheadUs + Sum(l.durations)))
      <==> Samples(f, l.timeline.frames) * MICROSECONDS < f.rate
  {
    var l := Run(f, lookaheadUs, steps).value;
    RunCarries(f, lookaheadUs, steps);
    DurationsAddUp(f, l);
    QuotientAtMost(Samples(f, l.timeline.frames) * MICROSECONDS, f.rate, 0);
  }

  /**
   Such a run: less than a chunk comes in, and a flush emits it padded. The frame lasts a microsecond or
   more, and the pending timestamp still stands at the first input.
   */
  lemma FlushLeavesPendingBehind(f: Format, lookaheadUs: nat, timestampUs: int)
    requires f.chunkSamples * MICROSECONDS >= f.rate
    ensures var run := Run(f, lookaheadUs, [Feed(timestampUs), Flush(true)]);
      && run.Some? && run.value.timeline.startUs.None?
      && Pending(f, run.value.timeline, lookaheadUs) == Some(timestampUs - lookaheadUs)
      && Sum(run.value.durations) >= 1
  {
    var steps := [Feed(timestampUs), Flush(true)];
    var fed := steps[..1];
    assert fed[..0] == [] && fed[0] == Feed(timestampUs);
    assert Run(f, lookaheadUs, fed) == Some(Emission(Fed(UNSTARTED, timestampUs), []));
    RunCarries(f, lookaheadUs, steps);
    UnanchoredPendingIff(f, lookaheadUs, steps);
    DurationsAddUp(f, Run(f, lookaheadUs, steps).value);
    assert Samples(f, 1) == f.chunkSamples;
    DurationAtLeastOne(f);
  }

  lemma DurationAtLeastOne(f: Format)
    requires f.chunkSamples * MICROSECONDS >= f.rate
    ensures Duration(f.chunkSamples, f.rate) >= 1
  {
    QuotientAtMost(f.chunkSamples * MICROSECONDS, f.rate, 0);
  }

  /** An anchor stays where the first packet put it, until a large gap. */
  lemma AnchorStays(f: Format, lookaheadUs: nat, l: Emission, step: Event)
    requires Enabled(l, step) && (step.Feed? ==> !LargeGap(l.timeline, step.timestampUs))
    ensures var after := Advanced(f, lookaheadUs, l, step).timeline;
      && (l.timeline.startUs.Some? ==> after.startUs == l.timeline.startUs)
      && (l.timeline.startUs.None? && after.startUs.Some? ==>
        after.startUs.value == l.timeline.firstInputUs.value +
          Duration(Samples(f, l.timeline.chunks), f.rate) - lookaheadUs)
  {
  }

  // ---------------------------------------------------------------- what a run comes to

  function LastFeed(steps: seq<Event>): Option<int> {
    if steps == [] then None
    else if steps[|steps| - 1].Feed? then Some(steps[|steps| - 1].timestampUs)
    else LastFeed(steps[..|steps| - 1])
  }

  function Chunks(steps: seq<Event>): nat {
    if steps == [] then 0 else Chunks(steps[..|steps| - 1]) + if steps[|steps| - 1].Encode? then 1 else 0
  }

  function Packets(steps: seq<Event>): nat {
    if steps == [] then 0
    else Packets(steps[..|steps| - 1]) + if steps[|steps| - 1] in {Encode(true), Flush(true)} then 1 else 0
  }

  /** An input begins a timeline when none came before it, or none in the second and a half before it. */
  predicate Begins(before: seq<Event>, timestampUs: int) {
    LastFeed(before).None? || timestampUs - LastFeed(before).value > 1_500_000
  }

  ghost predicate Continues(before: seq<Event>, more: seq<Event>) {
    forall i :: 0 <= i < |more| && more[i].Feed? ==> !Begins(before + more[..i], more[i].timestampUs)
  }

  lemma {:induction false} LastInputIs(f: Format, lookaheadUs: nat, steps: seq<Event>)
    requires Run(f, lookaheadUs, steps).Some?
    ensures
      var l := Run(f, lookaheadUs, steps).value;
      && l.timeline.lastInputUs == LastFeed(steps)
      && (LastFeed(steps).None? ==> |l.durations| == Packets(steps) && l.timeline.startUs.None?)
      && (LastFeed(steps).None? ==> l.timeline.firstInputUs.None? && l.timeline.chunks == 0)
    decreases |steps|
  {
    if steps != [] { LastInputIs(f, lookaheadUs, steps[..|steps| - 1]); }
  }

  lemma FirstFeedBegins(f: Format, lookaheadUs: nat, before: seq<Event>, timestampUs: int)
    requires Run(f, lookaheadUs, before + [Feed(timestampUs)]).Some? && Begins(before, timestampUs)
    ensures Run(f, lookaheadUs, before).Some?
    ensures
      var l := Run(f, lookaheadUs, before + [Feed(timestampUs)]).value;
      && l.timeline.firstInputUs == Some(timestampUs) && l.timeline.startUs.None? && l.timeline.chunks == 0
      && |l.durations| == if LastFeed(before).Some? then 0 else Packets(before)
  {
    assert (before + [Feed(timestampUs)])[..|before|] == before;
    LastInputIs(f, lookaheadUs, before);
  }

  predicate FirstPacketAt(more: seq<Event>, k: nat) {
    k < |more| && more[k] == Encode(true) && Encode(true) !in more[..k]
  }

  /**
   The first packet of a chunk, and nothing else, anchors the timeline: at its first input, plus the chunks
   the encoder took before that packet, less its lookahead.
   */
  ghost predicate AnchoredBy(f: Format, lookaheadUs: nat, timestampUs: int, more: seq<Event>, startUs: Option<int>) {
    && (startUs.None? <==> Encode(true) !in more)
    && (forall k: nat :: FirstPacketAt(more, k) ==>
         startUs == Some(AnchorAt(f, lookaheadUs, timestampUs, Chunks(more[..k]))))
  }

  function AnchorAt(f: Format, lookaheadUs: nat, timestampUs: int, held: nat): int {
    timestampUs + Duration(Samples(f, held), f.rate) - lookaheadUs
  }

  lemma FirstPacketOneMore(front: seq<Event>, last: Event, k: nat)
    requires FirstPacketAt(front + [last], k)
    ensures (front + [last])[..k] == front[..k]
    ensures if k == |front| then last == Encode(true) && Encode(true) !in front else FirstPacketAt(front, k)
  {
    assert (front + [last])[..k] == front[..k];
    assert front[..|front|] == front;
  }

  lemma AnchoredByOneMore(f: Format, lookaheadUs: nat, timestampUs: int, front: seq<Event>, last: Event,
      startUs: Option<int>)
    requires AnchoredBy(f, lookaheadUs, timestampUs, front, startUs)
    ensures AnchoredBy(f, lookaheadUs, timestampUs, front + [last],
        if startUs.None? && last == Encode(true)
        then Some(AnchorAt(f, lookaheadUs, timestampUs, Chunks(front))) else startUs)
  {
    assert Encode(true) in front + [last] <==> Encode(true) in front || last == Encode(true);
    assert front[..|front|] == front;
    forall k: nat | FirstPacketAt(front + [last], k)
      ensures (front + [last])[..k] == front[..k]
      ensures if k == |front| then last == Encode(true) && Encode(true) !in front else FirstPacketAt(front, k)
    {
      FirstPacketOneMore(front, last, k);
    }
  }

  lemma Preceding(f: Format, lookaheadUs: nat, start: seq<Event>, more: seq<Event>)
    requires Run(f, lookaheadUs, start + more).Some? && Continues(start, more) && more != []
    ensures
      var front, last := more[..|more| - 1], more[|more| - 1];
      && Run(f, lookaheadUs, start + front).Some? && Continues(start, front)
      && var l := Run(f, lookaheadUs, start + front).value;
         && Enabled(l, last) && Run(f, lookaheadUs, start + more).value == Advanced(f, lookaheadUs, l, last)
         && (last.Feed? ==> !LargeGap(l.timeline, last.timestampUs))
  {
    var n := |more| - 1;
    assert (start + more)[..|start + more| - 1] == start + more[..n];
    assert forall i :: 0 <= i < n ==> more[..n][..i] == more[..i];
    LastInputIs(f, lookaheadUs, start + more[..n]);
  }

  lemma {:induction false} TimelineCounts(f: Format, lookaheadUs: nat, before: seq<Event>, timestampUs: int,
      more: seq<Event>)
    requires Run(f, lookaheadUs, before + [Feed(timestampUs)] + more).Some?
    requires Begins(before, timestampUs) && Continues(before + [Feed(timestampUs)], more)
    ensures
      var l := Run(f, lookaheadUs, before + [Feed(timestampUs)] + more).value;
      && l.timeline.firstInputUs == Some(timestampUs) && l.timeline.chunks == Chunks(more)
      && |l.durations| == Packets(more) + if LastFeed(before).Some? then 0 else Packets(before)
    decreases |more|
  {
    var start := before + [Feed(timestampUs)];
    if more == [] {
      assert start + more == start;
      FirstFeedBegins(f, lookaheadUs, before, timestampUs);
    } else {
      Preceding(f, lookaheadUs, start, more);
      TimelineCounts(f, lookaheadUs, before, timestampUs, more[..|more| - 1]);
    }
  }

  lemma AnchorAfter(f: Format, lookaheadUs: nat, l: Emission, step: Event)
    requires Enabled(l, step) && (step.Feed? ==> !LargeGap(l.timeline, step.timestampUs))
    ensures Advanced(f, lookaheadUs, l, step).timeline.startUs ==
      if l.timeline.startUs.None? && step == Encode(true)
      then Some(AnchorAt(f, lookaheadUs, l.timeline.firstInputUs.value, l.timeline.chunks))
      else l.timeline.startUs
  {
  }

  lemma {:induction false} AnchorOf(f: Format, lookaheadUs: nat, before: seq<Event>, timestampUs: int, more: seq<Event>)
    requires Run(f, lookaheadUs, before + [Feed(timestampUs)] + more).Some?
    requires Begins(before, timestampUs) && Continues(before + [Feed(timestampUs)], more)
    ensures AnchoredBy(f, lookaheadUs, timestampUs, more,
        Run(f, lookaheadUs, before + [Feed(timestampUs)] + more).value.timeline.startUs)
    decreases |more|
  {
    var start := before + [Feed(timestampUs)];
    if more == [] {
      assert start + more == start;
      FirstFeedBegins(f, lookaheadUs, before, timestampUs);
    } else {
      var front, last := more[..|more| - 1], more[|more| - 1];
      assert more == front + [last];
      Preceding(f, lookaheadUs, start, more);
      var l := Run(f, lookaheadUs, start + front).value;
      AnchorOf(f, lookaheadUs, before, timestampUs, front);
      TimelineCounts(f, lookaheadUs, before, timestampUs, front);
      AnchorAfter(f, lookaheadUs, l, last);
      AnchoredByOneMore(f, lookaheadUs, timestampUs, front, last, l.timeline.startUs);
    }
  }

  /** Over every run, from an input that begins a timeline on, with no gap after it: anchor and durations. */
  lemma TimelineOf(f: Format, lookaheadUs: nat, before: seq<Event>, timestampUs: int, more: seq<Event>)
    requires Run(f, lookaheadUs, before + [Feed(timestampUs)] + more).Some?
    requires Begins(before, timestampUs) && Continues(before + [Feed(timestampUs)], more)
    ensures
      var l := Run(f, lookaheadUs, before + [Feed(timestampUs)] + more).value;
      && AnchoredBy(f, lookaheadUs, timestampUs, more, l.timeline.startUs)
      && |l.durations| == Packets(more) + if LastFeed(before).Some? then 0 else Packets(before)
  {
    AnchorOf(f, lookaheadUs, before, timestampUs, more);
    TimelineCounts(f, lookaheadUs, before, timestampUs, more);
  }
}
