/**
 Fragmentation of oversized transport messages, and their reassembly.

 The AEAD is symbolic: a received frame carries its decrypted plaintext, or nothing when
 it failed authentication. Text is its UTF-8 bytes.
 */
module Wire {
  import opened Common

  const MSG_TYPE_JSON_BODY: Byte := 0
  const MSG_TYPE_FRAGMENT: Byte := 1
  const MSG_TYPE_FRAGMENT_MORE: Byte := 2
  const MSG_TYPE_FRAGMENT_END: Byte := 3
  const FLAG_LAST := 1
  const FLAG_FIRST := 2
  // Section 3 of the Noise Protocol Framework caps a transport message at 65535 bytes, the
  // 16-byte authentication tag included.
  const MAX_TRANSPORT_PLAINTEXT := 65535 - 16
  const MAX_REASSEMBLED_MESSAGE_BYTES := 64 * 1024 * 1024

  predicate IsTransportType(t: Byte) { t == MSG_TYPE_FRAGMENT || t == 2 || t == 3 }

  // The three readings of a flags byte: bits 2-7, bit 1 and bit 0.
  predicate ReservedBits(flags: Byte) { flags / 4 != 0 }
  predicate FirstBit(flags: Byte) { flags / FLAG_FIRST % 2 == 1 }
  predicate LastBit(flags: Byte) { flags % 2 == 1 }

  // ---------------------------------------------------------------- sending

  /** What an application hands to the transport. */
  datatype Message = Text(body: seq<Byte>) | Binary(data: seq<Byte>)

  /** Whether the send succeeds: binary data needs a type byte the transport does not own. */
  predicate Accepted(m: Message) {
    m.Binary? ==> m.data != [] && !IsTransportType(m.data[0])
  }

  function Plaintext(m: Message): seq<Byte> {
    match m
    case Text(body) => [MSG_TYPE_JSON_BODY] + body
    case Binary(data) => data
  }

  function ContinuationHeader(legacy: bool, last: bool): seq<Byte> {
    if legacy then [if last then MSG_TYPE_FRAGMENT_END else MSG_TYPE_FRAGMENT_MORE]
    else [MSG_TYPE_FRAGMENT, if last then FLAG_LAST else 0]
  }

  function FirstHeader(legacy: bool, origType: Byte, last: bool): seq<Byte> {
    if legacy then [MSG_TYPE_FRAGMENT_MORE, origType]
    else [MSG_TYPE_FRAGMENT, FLAG_FIRST + if last then FLAG_LAST else 0, origType]
  }

  function FirstCap(legacy: bool): nat { MAX_TRANSPORT_PLAINTEXT - if legacy then 2 else 3 }
  function ContinuationCap(legacy: bool): nat { MAX_TRANSPORT_PLAINTEXT - if legacy then 1 else 2 }

  /** The data of the first continuation when `rest` is still to be sent. */
  function NextPiece(rest: seq<Byte>, legacy: bool): (piece: seq<Byte>) {
    if |rest| <= ContinuationCap(legacy) then rest else rest[..ContinuationCap(legacy)]
  }

  function NextFrame(rest: seq<Byte>, legacy: bool): seq<Byte> {
    ContinuationHeader(legacy, |rest| <= ContinuationCap(legacy)) + NextPiece(rest, legacy)
  }

  /** The continuation frames carrying `rest`: full pieces, the last one possibly shorter. */
  function Continuations(rest: seq<Byte>, legacy: bool): (frames: seq<seq<Byte>>)
    decreases |rest|
  {
    if rest == [] then [] else
    [NextFrame(rest, legacy)] + Continuations(rest[|NextPiece(rest, legacy)|..], legacy)
  }

  /** What goes out instead of a plaintext that no single frame can hold. */
  function Fragments(plaintext: seq<Byte>, legacy: bool): (frames: seq<seq<Byte>>)
    requires |plaintext| > MAX_TRANSPORT_PLAINTEXT
  {
    var data := plaintext[1..];
    var cap := FirstCap(legacy);
    [FirstHeader(legacy, plaintext[0], |data| <= cap) + data[..cap]]
    + Continuations(data[cap..], legacy)
  }

  /** Every frame one send puts on the wire, in order. */
  function Frames(plaintext: seq<Byte>, legacy: bool): (frames: seq<seq<Byte>>) {
    if |plaintext| <= MAX_TRANSPORT_PLAINTEXT then [plaintext] else Fragments(plaintext, legacy)
  }

  /** The loop that builds the frames of one oversized plaintext. */
  method Fragment(plaintext: seq<Byte>, legacy: bool) returns (frames: seq<seq<Byte>>)
    requires |plaintext| > MAX_TRANSPORT_PLAINTEXT
    ensures frames == Fragments(plaintext, legacy)
  {
    var data := plaintext[1..];
    var firstCap, contCap := FirstCap(legacy), ContinuationCap(legacy);
    frames := [FirstHeader(legacy, plaintext[0], |data| <= firstCap) + data[..firstCap]];
    var i := firstCap;
    ghost var rest := Continuations(data[i..], legacy);
    ghost var all := frames + rest;
    while i < |data|
      invariant firstCap <= i <= |data|
      invariant rest == Continuations(data[i..], legacy) && frames + rest == all
    {
      var end := if i + contCap < |data| then i + contCap else |data|;
      var frame := ContinuationHeader(legacy, end == |data|) + data[i..end];
      ContinuationsAt(data, i, legacy);
      rest := Continuations(data[end..], legacy);
      ConcatAssociates(frames, [frame], rest);
      frames := frames + [frame];
      i := end;
    }
    assert data[i..] == [];
    ConcatEmpty(frames);
  }

  lemma ContinuationsAt(data: seq<Byte>, i: nat, legacy: bool)
    requires i < |data|
    ensures var cap := ContinuationCap(legacy);
      var end := if i + cap < |data| then i + cap else |data|;
      Continuations(data[i..], legacy)
        == [ContinuationHeader(legacy, end == |data|) + data[i..end]] + Continuations(data[end..], legacy)
  {
    var piece := NextPiece(data[i..], legacy);
    var end := i + |piece|;
    assert piece == data[i..end];
    assert data[i..][|piece|..] == data[end..];
  }

  // ---------------------------------------------------------------- receiving

  /** One raw WebSocket message as the receiver sees it. */
  datatype Raw =
    | Closing
    | Sealed(plaintext: Option<seq<Byte>>)
    | TransportError
    | OtherKind

  /** What the receiver returns for a raw message, when it returns at all. */
  datatype Event =
    | Delivered(message: Message)
    | Violation
    | ClosePassed
    | ErrorPassed
    // The body of a JSON message is not UTF-8, and decoding it raises.
    | Undecodable

  datatype State = Idle | InFlight(origType: Byte, data: seq<Byte>, legacy: bool)

  /** Opt-in to legacy fragments, and what the platform accepts as UTF-8. */
  datatype Config = Config(acceptLegacy: bool, utf8: seq<Byte> -> bool)

  function Dispatch(cfg: Config, plaintext: seq<Byte>): (e: Event)
    requires plaintext != []
  {
    if plaintext[0] == MSG_TYPE_JSON_BODY then
      if cfg.utf8(plaintext[1..]) then Delivered(Text(plaintext[1..])) else Undecodable
    else Delivered(Binary(plaintext))
  }

  /** What one fragment frame is to the reassembly: its role, and the data it carries. */
  datatype Piece =
    | NotFragment
    | Malformed
    | Start(legacy: bool, origType: Byte, data: seq<Byte>, last: bool)
    | Continue(legacy: bool, data: seq<Byte>, last: bool)

  /** Reading a legacy frame depends on whether a message is in flight, since it carries no first flag. */
  function Classify(cfg: Config, inFlight: bool, frame: seq<Byte>): Piece {
    if frame == [] then Malformed
    else if frame[0] == MSG_TYPE_FRAGMENT then
      if |frame| < 2 || ReservedBits(frame[1]) then Malformed
      else if !FirstBit(frame[1]) then Continue(false, frame[2..], LastBit(frame[1]))
      else if |frame| < 3 || frame[2] == MSG_TYPE_FRAGMENT then Malformed
      else Start(false, frame[2], frame[3..], LastBit(frame[1]))
    else if cfg.acceptLegacy && (frame[0] == MSG_TYPE_FRAGMENT_MORE || frame[0] == MSG_TYPE_FRAGMENT_END) then
      if inFlight then Continue(true, frame[1..], frame[0] == MSG_TYPE_FRAGMENT_END)
      else if frame[0] == MSG_TYPE_FRAGMENT_END || |frame| < 2 || IsTransportType(frame[1]) then Malformed
      else Start(true, frame[1], frame[2..], false)
    else NotFragment
  }

  /** The reassembly machine over frame roles: one received frame, the next state and what is returned. */
  function Receive(cfg: Config, st: State, raw: Raw): (r: (State, Option<Event>)) {
    match raw
    case Closing => (st, Some(ClosePassed))
    case TransportError => (st, Some(ErrorPassed))
    case OtherKind => (Idle, Some(Violation))
    case Sealed(None) => (Idle, Some(Violation))
    case Sealed(Some(frame)) =>
      match Classify(cfg, st.InFlight?, frame)
      case Malformed => (Idle, Some(Violation))
      case NotFragment => (Idle, Some(if st.Idle? then Dispatch(cfg, frame) else Violation))
      case Start(legacy, origType, data, last) =>
        if st.InFlight? then (Idle, Some(Violation))
        else Extend(cfg, InFlight(origType, [], legacy), data, last)
      case Continue(legacy, data, last) =>
        if st.Idle? || st.legacy != legacy then (Idle, Some(Violation))
        else Extend(cfg, st, data, last)
  }

  function Extend(cfg: Config, st: State, data: seq<Byte>, last: bool): (r: (State, Option<Event>))
    requires st.InFlight?
  {
    if |st.data| + |data| > MAX_REASSEMBLED_MESSAGE_BYTES then (Idle, Some(Violation))
    else if last then (Idle, Some(Dispatch(cfg, [st.origType] + st.data + data)))
    else (st.(data := st.data + data), None)
  }

  /** The state after a stream, and everything returned on the way, in order. */
  datatype Reception = Reception(state: State, events: seq<Event>)

  function OneMore(cfg: Config, before: Reception, raw: Raw): Reception {
    var (next, out) := Receive(cfg, before.state, raw);
    Reception(next, if out.Some? then before.events + [out.value] else before.events)
  }

  function ReceiveAll(cfg: Config, start: Reception, raws: seq<Raw>): Reception
    decreases |raws|
  {
    if raws == [] then start
    else OneMore(cfg, ReceiveAll(cfg, start, raws[..|raws| - 1]), raws[|raws| - 1])
  }

  /** What a receiver without history makes of a stream of decrypted frames. */
  function ReceiveFrames(cfg: Config, frames: seq<seq<Byte>>): Reception {
    ReceiveAll(cfg, Reception(Idle, []), Opened(frames))
  }

  function Opened(frames: seq<seq<Byte>>): (raws: seq<Raw>)
    ensures |raws| == |frames|
  {
    seq(|frames|, i requires 0 <= i < |frames| => Sealed(Some(frames[i])))
  }

  /** The message starts a legacy fragmented message at an idle receiver, which then runs its callback. */
  predicate StartsLegacy(cfg: Config, raw: Raw) {
    && raw.Sealed? && raw.plaintext.Some?
    && Classify(cfg, false, raw.plaintext.value).Start? && Classify(cfg, false, raw.plaintext.value).legacy
  }

  /** The receiver object, one frame at a time. */
  class EncryptedWebSocket {
    var reasmBuf: Option<seq<Byte>>
    var reasmType: Option<Byte>
    var reasmLegacy: bool
    // How often the legacy callback ran.
    var legacyMessages: nat
    const cfg: Config

    ghost predicate Valid() reads this {
      && (reasmBuf.Some? <==> reasmType.Some?)
      && (reasmLegacy ==> reasmBuf.Some?)
      && (reasmBuf.Some? ==> |reasmBuf.value| <= MAX_REASSEMBLED_MESSAGE_BYTES)
    }

    ghost function Abs(): State reads this requires Valid() {
      if reasmBuf.None? then Idle else InFlight(reasmType.value, reasmBuf.value, reasmLegacy)
    }

    constructor (cfg: Config)
      ensures Valid() && Abs() == Idle && this.cfg == cfg
    {
      this.cfg := cfg;
      reasmBuf, reasmType, reasmLegacy, legacyMessages := None, None, false, 0;
    }

    /** One received message; `raises` when the legacy callback would raise. */
    method Decode(raw: Raw, raises: bool) returns (out: Option<Event>, raised: bool)
      requires Valid()
      modifies this
      ensures Valid()
      ensures !raised ==> (Abs(), out) == Receive(cfg, old(Abs()), raw)
      ensures raised ==> Abs() == old(Abs()) && out == None
      ensures raised <==> raises && old(Abs()).Idle? && StartsLegacy(cfg, raw)
      ensures out == Some(Violation) ==> Abs() == Idle
    {
      raised := false;
      match raw {
        case Closing => out := Some(ClosePassed);
        case TransportError => out := Some(ErrorPassed);
        case OtherKind => out := Error();
        case Sealed(None) => out := Error();
        case Sealed(Some(plaintext)) =>
          if plaintext == [] {
            out := Error();
          } else if plaintext[0] == MSG_TYPE_FRAGMENT {
            out := OnFragment(plaintext);
          } else if cfg.acceptLegacy &&
            (plaintext[0] == MSG_TYPE_FRAGMENT_MORE || plaintext[0] == MSG_TYPE_FRAGMENT_END)
          {
            out, raised := OnLegacyFragment(plaintext, raises);
          } else if reasmBuf.Some? {
            out := Error();
          } else {
            out := Some(Dispatch(cfg, plaintext));
          }
      }
    }

    method OnFragment(plaintext: seq<Byte>) returns (out: Option<Event>)
      requires Valid() && plaintext != [] && plaintext[0] == MSG_TYPE_FRAGMENT
      modifies this
      ensures Valid() && (Abs(), out) == Receive(cfg, old(Abs()), Sealed(Some(plaintext)))
      ensures legacyMessages == old(legacyMessages)
    {
      if |plaintext| < 2 { out := Error(); return; }
      var flags := plaintext[1];
      var data;
      if ReservedBits(flags) { out := Error(); return; }
      if FirstBit(flags) {
        if reasmBuf.Some? { out := Error(); return; }
        if |plaintext| < 3 { out := Error(); return; }
        if plaintext[2] == MSG_TYPE_FRAGMENT { out := Error(); return; }
        StartReassembly(plaintext[2], false);
        data := plaintext[3..];
      } else if reasmBuf.None? {
        out := Error(); return;
      } else if reasmLegacy {
        out := Error(); return;
      } else {
        data := plaintext[2..];
      }
      out := AppendFragment(data, LastBit(flags));
    }

    method OnLegacyFragment(plaintext: seq<Byte>, raises: bool) returns (out: Option<Event>, raised: bool)
      requires Valid() && cfg.acceptLegacy && plaintext != []
      requires plaintext[0] == MSG_TYPE_FRAGMENT_MORE || plaintext[0] == MSG_TYPE_FRAGMENT_END
      modifies this
      ensures Valid()
      ensures !raised ==> (Abs(), out) == Receive(cfg, old(Abs()), Sealed(Some(plaintext)))
      ensures raised ==> Abs() == old(Abs()) && out == None
      ensures raised <==> raises && legacyMessages == old(legacyMessages) + 1
      ensures legacyMessages == old(legacyMessages)
        + if old(Abs()).Idle? && StartsLegacy(cfg, Sealed(Some(plaintext))) then 1 else 0
    {
      raised := false;
      var last := plaintext[0] == MSG_TYPE_FRAGMENT_END;
      if reasmBuf.None? {
        if last { out := Error(); return; }
        if |plaintext| < 2 { out := Error(); return; }
        if IsTransportType(plaintext[1]) { out := Error(); return; }
        legacyMessages := legacyMessages + 1;
        if raises { return None, true; }
        StartReassembly(plaintext[1], true);
        out := AppendFragment(plaintext[2..], false);
        return;
      }
      if !reasmLegacy { out := Error(); return; }
      out := AppendFragment(plaintext[1..], last);
    }

    method StartReassembly(origType: Byte, legacy: bool)
      requires Valid() && Abs() == Idle
      modifies this
      ensures Valid() && Abs() == InFlight(origType, [], legacy)
      ensures legacyMessages == old(legacyMessages)
    {
      reasmBuf, reasmType, reasmLegacy := Some([]), Some(origType), legacy;
    }

    method AppendFragment(data: seq<Byte>, last: bool) returns (out: Option<Event>)
      requires Valid() && Abs().InFlight?
      modifies this
      ensures Valid() && (Abs(), out) == Extend(cfg, old(Abs()), data, last)
      ensures legacyMessages == old(legacyMessages)
    {
      if |reasmBuf.value| + |data| > MAX_REASSEMBLED_MESSAGE_BYTES { out := Error(); return; }
      reasmBuf := Some(reasmBuf.value + data);
      if !last { return None; }
      var reassembled := [reasmType.value] + reasmBuf.value;
      assert reassembled == [old(Abs()).origType] + old(Abs()).data + data;
      ResetReassembly();
      out := Some(Dispatch(cfg, reassembled));
    }

    method ResetReassembly()
      modifies this
      ensures Valid() && Abs() == Idle && legacyMessages == old(legacyMessages)
    {
      reasmBuf, reasmType, reasmLegacy := None, None, false;
    }

    method Error() returns (out: Option<Event>)
      modifies this
      ensures Valid() && Abs() == Idle && out == Some(Violation) && legacyMessages == old(legacyMessages)
    {
      ResetReassembly();
      out := Some(Violation);
    }
  }

  // ---------------------------------------------------------------- runs of frames

  datatype Run = NoRun | Run(origType: Byte, data: seq<Byte>, legacy: bool, complete: bool)

  /**
   What a list of frames amounts to as one run of a single framing: a start, then continuations,
   where only a final frame marked last completes it.
   */
  function RunOf(cfg: Config, frames: seq<seq<Byte>>): Run
    decreases |frames|
  {
    if frames == [] then NoRun else
    var n := |frames| - 1;
    if n == 0 then
      var p := Classify(cfg, false, frames[0]);
      if p.Start? then Run(p.origType, p.data, p.legacy, p.last) else NoRun
    else
      var open := RunOf(cfg, frames[..n]);
      var p := Classify(cfg, true, frames[n]);
      if open.Run? && !open.complete && p.Continue? && p.legacy == open.legacy
      then Run(open.origType, open.data + p.data, open.legacy, p.last) else NoRun
  }

  lemma RunGrows(cfg: Config, frames: seq<seq<Byte>>, frame: seq<Byte>)
    requires frames != []
    ensures RunOf(cfg, frames + [frame]) ==
      var open := RunOf(cfg, frames);
      var p := Classify(cfg, true, frame);
      if open.Run? && !open.complete && p.Continue? && p.legacy == open.legacy
      then Run(open.origType, open.data + p.data, open.legacy, p.last) else NoRun
  {
    assert (frames + [frame])[..|frames|] == frames;
  }

  /** What frame `i` of a run is: the first is read by an idle receiver, the others are not. */
  function Role(cfg: Config, frames: seq<seq<Byte>>, i: nat): Piece
    requires i < |frames|
  {
    Classify(cfg, i > 0, frames[i])
  }

  /** A run, frame by frame: one start, all of one framing, and none but the final one marked last. */
  ghost predicate Shaped(cfg: Config, frames: seq<seq<Byte>>) {
    && frames != []
    && Role(cfg, frames, 0).Start?
    && (forall i :: 0 < i < |frames| ==>
          Role(cfg, frames, i).Continue? && Role(cfg, frames, i).legacy == Role(cfg, frames, 0).legacy)
    && (forall i :: 0 <= i < |frames| - 1 ==> !Role(cfg, frames, i).last)
  }

  lemma ShapedGrows(cfg: Config, frames: seq<seq<Byte>>)
    requires |frames| > 1
    ensures var n := |frames| - 1;
      Shaped(cfg, frames) <==>
        && Shaped(cfg, frames[..n])
        && !Role(cfg, frames[..n], n - 1).last
        && Role(cfg, frames, n).Continue?
        && Role(cfg, frames, n).legacy == Role(cfg, frames[..n], 0).legacy
    ensures forall i :: 0 <= i < |frames| - 1 ==> Role(cfg, frames[..|frames| - 1], i) == Role(cfg, frames, i)
  {
    var n := |frames| - 1;
    assert forall i :: 0 <= i < n ==> Role(cfg, frames[..n], i) == Role(cfg, frames, i);
    if Shaped(cfg, frames) {
      assert Role(cfg, frames, n - 1) == Role(cfg, frames[..n], n - 1);
      assert Shaped(cfg, frames[..n]);
    } else if Shaped(cfg, frames[..n]) {
      assert forall i :: 0 < i < n ==> Role(cfg, frames[..n], i).Continue?;
    }
  }

  /** The two readings of a run agree: `RunOf` finds one exactly in the frame lists so shaped. */
  lemma {:induction false} RunIffShaped(cfg: Config, frames: seq<seq<Byte>>)
    ensures RunOf(cfg, frames).Run? <==> Shaped(cfg, frames)
    ensures Shaped(cfg, frames) ==>
      var run, first := RunOf(cfg, frames), Role(cfg, frames, 0);
      && run.origType == first.origType && run.legacy == first.legacy
      && run.complete == Role(cfg, frames, |frames| - 1).last
    decreases |frames|
  {
    if |frames| > 1 {
      RunIffShaped(cfg, frames[..|frames| - 1]);
      ShapedGrows(cfg, frames);
    }
  }

  lemma ReceiveAllOneMore(cfg: Config, start: Reception, raws: seq<Raw>, raw: Raw)
    ensures ReceiveAll(cfg, start, raws + [raw]) == OneMore(cfg, ReceiveAll(cfg, start, raws), raw)
  {
    assert (raws + [raw])[..|raws|] == raws;
  }

  lemma {:induction false} ReceiveAllAppend(cfg: Config, start: Reception, a: seq<Raw>, b: seq<Raw>)
    ensures ReceiveAll(cfg, start, a + b) == ReceiveAll(cfg, ReceiveAll(cfg, start, a), b)
    decreases |b|
  {
    if b == [] {
      ConcatEmpty(a);
    } else {
      var n := |b| - 1;
      ReceiveAllAppend(cfg, start, a, b[..n]);
      assert b == b[..n] + [b[n]];
      ConcatAssociates(a, b[..n], [b[n]]);
      ReceiveAllOneMore(cfg, start, a + b[..n], b[n]);
    }
  }

  /** Earlier events only stand before the new ones. */
  lemma {:induction false} EarlierEventsKept(cfg: Config, start: Reception, raws: seq<Raw>)
    ensures var anew := ReceiveAll(cfg, Reception(start.state, []), raws);
      ReceiveAll(cfg, start, raws) == Reception(anew.state, start.events + anew.events)
    decreases |raws|
  {
    if raws == [] {
      ConcatEmpty(start.events);
    } else {
      var n := |raws| - 1;
      EarlierEventsKept(cfg, start, raws[..n]);
      var anew := ReceiveAll(cfg, Reception(start.state, []), raws[..n]);
      var out := Receive(cfg, anew.state, raws[n]).1;
      if out.Some? {
        ConcatAssociates(start.events, anew.events, [out.value]);
      }
    }
  }

  /** Close and error notices of the socket, which pass through without touching the reassembly. */
  predicate IsNotice(raw: Raw) { raw.Closing? || raw.TransportError? }

  function WithoutNotices(raws: seq<Raw>): (kept: seq<Raw>)
    ensures forall raw :: raw in kept ==> !IsNotice(raw)
    decreases |raws|
  {
    if raws == [] then [] else
    var kept := WithoutNotices(raws[..|raws| - 1]);
    if IsNotice(raws[|raws| - 1]) then kept else kept + [raws[|raws| - 1]]
  }

  lemma {:induction false} NoticesKeepState(cfg: Config, raws: seq<Raw>)
    ensures ReceiveAll(cfg, Reception(Idle, []), raws).state
      == ReceiveAll(cfg, Reception(Idle, []), WithoutNotices(raws)).state
    decreases |raws|
  {
    if raws != [] {
      var n := |raws| - 1;
      NoticesKeepState(cfg, raws[..n]);
      ReceiveAllOneMore(cfg, Reception(Idle, []), WithoutNotices(raws[..n]), raws[n]);
    }
  }

  ghost predicate EndsWith(raws: seq<Raw>, frames: seq<seq<Byte>>) {
    |frames| <= |raws| && raws[|raws| - |frames|..] == Opened(frames)
  }

  lemma EndsWithOneMore(raws: seq<Raw>, frames: seq<seq<Byte>>, frame: seq<Byte>)
    requires EndsWith(raws, frames)
    ensures EndsWith(raws + [Sealed(Some(frame))], frames + [frame])
  {
  }

  lemma EndsWithOne(raws: seq<Raw>, frame: seq<Byte>)
    ensures EndsWith(raws + [Sealed(Some(frame))], [frame])
  {
  }

  /** The run a state stands for, together with the frame list that opened it. */
  ghost predicate Opens(cfg: Config, run: seq<seq<Byte>>, st: State) {
    st.InFlight? ==>
      && |st.data| <= MAX_REASSEMBLED_MESSAGE_BYTES
      && RunOf(cfg, run) == Run(st.origType, st.data, st.legacy, false)
  }

  /** `run` is a complete run of frames within the size bound, and `plaintext` its original type and data. */
  ghost predicate Reassembled(cfg: Config, run: seq<seq<Byte>>, plaintext: seq<Byte>) {
    && RunOf(cfg, run).Run? && RunOf(cfg, run).complete
    && |RunOf(cfg, run).data| <= MAX_REASSEMBLED_MESSAGE_BYTES
    && plaintext == [RunOf(cfg, run).origType] + RunOf(cfg, run).data
  }

  /** One more frame: the run it leaves open, or the complete run behind the message it delivers. */
  lemma FrameExtendsRun(cfg: Config, run: seq<seq<Byte>>, st: State, frame: seq<Byte>)
    requires Opens(cfg, run, st) && (st.InFlight? ==> run != [])
    ensures var (next, out) := Receive(cfg, st, Sealed(Some(frame)));
      var longer := if st.InFlight? then run + [frame] else [frame];
      && Opens(cfg, longer, next)
      && (out.Some? && out.value.Delivered? ==>
            var plaintext := Plaintext(out.value.message);
            || (plaintext == frame && Classify(cfg, false, frame) == NotFragment && st.Idle?)
            || Reassembled(cfg, longer, plaintext))
  {
    var p := Classify(cfg, st.InFlight?, frame);
    if st.InFlight? {
      RunGrows(cfg, run, frame);
      if p.Continue? {
        ConcatAssociates([st.origType], st.data, p.data);
        DispatchKeepsPlaintext(cfg, [st.origType] + st.data + p.data);
      }
    } else if p.Start? {
      ConcatEmpty([p.origType]);
      ConcatEmpty(p.data);
      DispatchKeepsPlaintext(cfg, [p.origType] + [] + p.data);
    } else if p.NotFragment? {
      DispatchKeepsPlaintext(cfg, frame);
    }
  }

  /** The frames `run` are the latest of `raws`, and `st` is the message they leave open. */
  ghost predicate StandsFor(cfg: Config, raws: seq<Raw>, run: seq<seq<Byte>>, st: State) {
    EndsWith(raws, run) && Opens(cfg, run, st) && (st.InFlight? ==> run != [])
  }

  lemma FrameStandsFor(
    cfg: Config, raws: seq<Raw>, run: seq<seq<Byte>>, st: State, raw: Raw) returns (longer: seq<seq<Byte>>)
    requires StandsFor(cfg, raws, run, st) && !IsNotice(raw)
    ensures StandsFor(cfg, raws + [raw], longer, Receive(cfg, st, raw).0)
  {
    longer := [];
    if Receive(cfg, st, raw).0.InFlight? {
      var frame := raw.plaintext.value;
      FrameExtendsRun(cfg, run, st, frame);
      EndsWithOneMore(raws, run, frame);
      EndsWithOne(raws, frame);
      longer := if st.InFlight? then run + [frame] else [frame];
    }
  }

  /** What an in-flight state means: the frames that opened the message are the latest received. */
  lemma {:induction false} InFlightIsOpenRun(cfg: Config, raws: seq<Raw>) returns (run: seq<seq<Byte>>)
    requires forall raw :: raw in raws ==> !IsNotice(raw)
    ensures StandsFor(cfg, raws, run, ReceiveAll(cfg, Reception(Idle, []), raws).state)
    decreases |raws|
  {
    run := [];
    if raws != [] {
      var n := |raws| - 1;
      var before := InFlightIsOpenRun(cfg, raws[..n]);
      run := FrameStandsFor(cfg, raws[..n], before, ReceiveAll(cfg, Reception(Idle, []), raws[..n]).state, raws[n]);
      assert raws == raws[..n] + [raws[n]];
    }
  }

  /** `out` is no message, or the frame `raw` itself, or the reassembly of the run that ends `raws + [raw]`. */
  ghost predicate DeliveredFrom(
    cfg: Config, raws: seq<Raw>, raw: Raw, idle: bool, out: Option<Event>, run: seq<seq<Byte>>)
  {
    out.Some? && out.value.Delivered? ==>
      var plaintext := Plaintext(out.value.message);
      || (raw == Sealed(Some(plaintext)) && Classify(cfg, false, plaintext) == NotFragment && idle)
      || (EndsWith(raws + [raw], run) && Reassembled(cfg, run, plaintext))
  }

  lemma DeliveredByFrame(
    cfg: Config, raws: seq<Raw>, run: seq<seq<Byte>>, st: State, raw: Raw) returns (longer: seq<seq<Byte>>)
    requires StandsFor(cfg, raws, run, st)
    ensures DeliveredFrom(cfg, raws, raw, st.Idle?, Receive(cfg, st, raw).1, longer)
  {
    longer := [];
    var out := Receive(cfg, st, raw).1;
    if out.Some? && out.value.Delivered? {
      var frame := raw.plaintext.value;
      FrameExtendsRun(cfg, run, st, frame);
      EndsWithOneMore(raws, run, frame);
      EndsWithOne(raws, frame);
      longer := if st.InFlight? then run + [frame] else [frame];
    }
  }

  /**
   Safety of reassembly over an arbitrary stream. Whatever the final frame makes the receiver
   return as a message is either that frame itself, or the type and data of one contiguous run of
   frames of a single framing ending there, within the size bound.
   */
  lemma DeliveredIsContiguousRun(cfg: Config, raws: seq<Raw>, raw: Raw) returns (run: seq<seq<Byte>>)
    ensures var st := ReceiveAll(cfg, Reception(Idle, []), raws).state;
      DeliveredFrom(cfg, WithoutNotices(raws), raw, st.Idle?, Receive(cfg, st, raw).1, run)
  {
    NoticesKeepState(cfg, raws);
    run := InFlightIsOpenRun(cfg, WithoutNotices(raws));
    run := DeliveredByFrame(cfg, WithoutNotices(raws), run, ReceiveAll(cfg, Reception(Idle, []), raws).state, raw);
  }

  lemma DispatchKeepsPlaintext(cfg: Config, plaintext: seq<Byte>)
    requires plaintext != []
    ensures var e := Dispatch(cfg, plaintext);
      e.Delivered? ==> Plaintext(e.message) == plaintext
  {
    assert [plaintext[0]] + plaintext[1..] == plaintext;
  }

  /** A current fragment that must not come now: broken, a first one in between, or one of nothing in flight. */
  predicate BadFragment(st: State, frame: seq<Byte>) {
    || |frame| < 2
    || frame[1] >= 4
    || (frame[1] >= 2 && (st.InFlight? || |frame| < 3 || frame[2] == MSG_TYPE_FRAGMENT))
    || (frame[1] < 2 && (st.Idle? || st.legacy))
  }

  /** Likewise of a legacy fragment. */
  predicate BadLegacyFragment(st: State, frame: seq<Byte>)
    requires frame != []
  {
    if st.InFlight? then !st.legacy
    else frame[0] == MSG_TYPE_FRAGMENT_END || |frame| < 2 || 1 <= frame[1] <= 3
  }

  /** How many bytes of message data a fragment carries. */
  function Carries(st: State, frame: seq<Byte>): int {
    if frame == [] then 0
    else if frame[0] == MSG_TYPE_FRAGMENT then |frame| - (if |frame| >= 2 && frame[1] >= 2 then 3 else 2)
    else |frame| - (if st.Idle? then 2 else 1)
  }

  predicate IsFragment(cfg: Config, frame: seq<Byte>) {
    frame != [] &&
    (frame[0] == MSG_TYPE_FRAGMENT ||
     (cfg.acceptLegacy && (frame[0] == MSG_TYPE_FRAGMENT_MORE || frame[0] == MSG_TYPE_FRAGMENT_END)))
  }

  predicate BadFrame(cfg: Config, st: State, frame: seq<Byte>) {
    || frame == []
    || (!IsFragment(cfg, frame) && st.InFlight?)
    || (IsFragment(cfg, frame) &&
         (|| (if frame[0] == MSG_TYPE_FRAGMENT then BadFragment(st, frame) else BadLegacyFragment(st, frame))
          || (if st.InFlight? then |st.data| else 0) + Carries(st, frame) > MAX_REASSEMBLED_MESSAGE_BYTES))
  }

  predicate FinalFragment(frame: seq<Byte>) {
    if |frame| >= 2 && frame[0] == MSG_TYPE_FRAGMENT then frame[1] % 2 == 1
    else frame != [] && frame[0] == MSG_TYPE_FRAGMENT_END
  }

  /**
   What each received message comes to: a violation is reported for exactly a message of another kind, a
   frame that fails authentication, and a bad frame; nothing for exactly a good fragment that is not final.
   */
  lemma OutcomeIff(cfg: Config, st: State, raw: Raw)
    ensures var out := Receive(cfg, st, raw).1;
      && (out == Some(Violation) <==>
           raw.OtherKind? || (raw.Sealed? && (raw.plaintext.None? || BadFrame(cfg, st, raw.plaintext.value))))
      && (out == None <==>
           && raw.Sealed? && raw.plaintext.Some? && IsFragment(cfg, raw.plaintext.value)
           && !BadFrame(cfg, st, raw.plaintext.value) && !FinalFragment(raw.plaintext.value))
      && (out == Some(ClosePassed) <==> raw.Closing?)
      && (out == Some(ErrorPassed) <==> raw.TransportError?)
  {
    if raw.Sealed? && raw.plaintext.Some? { FrameOutcome(cfg, st, raw.plaintext.value); }
  }

  lemma FrameOutcome(cfg: Config, st: State, frame: seq<Byte>)
    ensures var out := Receive(cfg, st, Sealed(Some(frame))).1;
      && (out == Some(Violation) <==> BadFrame(cfg, st, frame))
      && (out == None <==> IsFragment(cfg, frame) && !BadFrame(cfg, st, frame) && !FinalFragment(frame))
      && out != Some(ClosePassed) && out != Some(ErrorPassed)
  {
    if IsFragment(cfg, frame) {
      var p := Classify(cfg, st.InFlight?, frame);
      assert !p.NotFragment?;
    }
  }

  /** The legacy callback runs exactly when an idle receiver begins a legacy reassembly. */
  lemma LegacyCallbackIff(cfg: Config, raw: Raw)
    ensures StartsLegacy(cfg, raw) && Receive(cfg, Idle, raw).1 != Some(Violation)
      <==> Receive(cfg, Idle, raw).0.InFlight? && Receive(cfg, Idle, raw).0.legacy
  {
  }

  /** Every violation, and every undecodable body, leaves the receiver idle. */
  lemma ViolationLeavesIdle(cfg: Config, st: State, raw: Raw)
    ensures var (next, out) := Receive(cfg, st, raw);
      out.Some? && !out.value.ClosePassed? && !out.value.ErrorPassed? ==> next == Idle
  {
  }

  lemma OpenedAppend(a: seq<seq<Byte>>, b: seq<seq<Byte>>)
    ensures Opened(a + b) == Opened(a) + Opened(b)
  {
  }

  /** Receiving in two parts: the events of the first part, then those of the second. */
  lemma ReceiveFramesAppend(cfg: Config, a: seq<seq<Byte>>, b: seq<seq<Byte>>)
    ensures var first := ReceiveFrames(cfg, a);
      var second := ReceiveAll(cfg, Reception(first.state, []), Opened(b));
      ReceiveFrames(cfg, a + b) == Reception(second.state, first.events + second.events)
  {
    OpenedAppend(a, b);
    ReceiveAllAppend(cfg, Reception(Idle, []), Opened(a), Opened(b));
    EarlierEventsKept(cfg, ReceiveFrames(cfg, a), Opened(b));
  }

  lemma ReceiveFramesOneMore(cfg: Config, frames: seq<seq<Byte>>, frame: seq<Byte>)
    ensures ReceiveFrames(cfg, frames + [frame]) == OneMore(cfg, ReceiveFrames(cfg, frames), Sealed(Some(frame)))
  {
    OpenedAppend(frames, [frame]);
    assert Opened([frame]) == [Sealed(Some(frame))];
    ReceiveAllOneMore(cfg, Reception(Idle, []), Opened(frames), Sealed(Some(frame)));
  }

  /**
   The converse of `DeliveredIsContiguousRun`: an idle receiver delivers a complete run within the
   bound whole and alone, and holds the data of an open one.
   */
  lemma {:induction false} RunReceived(cfg: Config, frames: seq<seq<Byte>>)
    requires RunOf(cfg, frames).Run? && |RunOf(cfg, frames).data| <= MAX_REASSEMBLED_MESSAGE_BYTES
    ensures var run := RunOf(cfg, frames);
      ReceiveFrames(cfg, frames) ==
        if run.complete then Reception(Idle, [Dispatch(cfg, [run.origType] + run.data)])
        else Reception(InFlight(run.origType, run.data, run.legacy), [])
    decreases |frames|
  {
    var n := |frames| - 1;
    assert frames == frames[..n] + [frames[n]];
    ReceiveFramesOneMore(cfg, frames[..n], frames[n]);
    var p := Classify(cfg, n > 0, frames[n]);
    if n == 0 {
      assert ReceiveFrames(cfg, frames[..n]) == Reception(Idle, []);
      ConcatEmpty([p.origType]);
      ConcatEmpty(p.data);
    } else {
      var open := RunOf(cfg, frames[..n]);
      RunReceived(cfg, frames[..n]);
      ConcatAssociates([open.origType], open.data, p.data);
    }
  }

  // ---------------------------------------------------------------- printing then parsing

  /** A continuation frame is read back as the piece it carries. */
  lemma NextFrameClassified(cfg: Config, rest: seq<Byte>, legacy: bool)
    requires legacy ==> cfg.acceptLegacy
    ensures Classify(cfg, true, NextFrame(rest, legacy))
      == Continue(legacy, NextPiece(rest, legacy), |rest| <= ContinuationCap(legacy))
    ensures !legacy ==> Classify(cfg, false, NextFrame(rest, false)) == Classify(cfg, true, NextFrame(rest, false))
  {
    var frame := NextFrame(rest, legacy);
    assert frame[if legacy then 1 else 2..] == NextPiece(rest, legacy);
  }

  /** Continuation frames carry on an open run, up to the whole of the remaining data. */
  lemma {:induction false} ContinuationsCompleteRun(
      cfg: Config, frames: seq<seq<Byte>>, origType: Byte, before: seq<Byte>, rest: seq<Byte>, legacy: bool)
    requires legacy ==> cfg.acceptLegacy
    requires RunOf(cfg, frames) == Run(origType, before, legacy, false)
    requires rest != []
    ensures RunOf(cfg, frames + Continuations(rest, legacy)) == Run(origType, before + rest, legacy, true)
    decreases |rest|
  {
    var piece, frame := NextPiece(rest, legacy), NextFrame(rest, legacy);
    var more := Continuations(rest[|piece|..], legacy);
    NextFrameClassified(cfg, rest, legacy);
    RunGrows(cfg, frames, frame);
    ConcatAssociates(frames, [frame], more);
    ConcatAssociates(before, piece, rest[|piece|..]);
    assert piece + rest[|piece|..] == rest;
    if |rest| <= ContinuationCap(legacy) {
      ConcatEmpty(frames + [frame]);
    } else {
      ContinuationsCompleteRun(cfg, frames + [frame], origType, before + piece, rest[|piece|..], legacy);
    }
  }

  /** An oversized plaintext never fits its first frame. */
  lemma FirstIsNotLast(plaintext: seq<Byte>, legacy: bool)
    requires |plaintext| > MAX_TRANSPORT_PLAINTEXT
    ensures var data, cap := plaintext[1..], FirstCap(legacy);
      Fragments(plaintext, legacy)
        == [FirstHeader(legacy, plaintext[0], false) + data[..cap]] + Continuations(data[cap..], legacy)
  {
    assert |plaintext[1..]| > FirstCap(legacy);
  }

  lemma FragmentsAreCompleteRun(cfg: Config, plaintext: seq<Byte>, legacy: bool)
    requires |plaintext| > MAX_TRANSPORT_PLAINTEXT
    requires legacy ==> cfg.acceptLegacy
    requires !IsTransportType(plaintext[0])
    ensures RunOf(cfg, Fragments(plaintext, legacy)) == Run(plaintext[0], plaintext[1..], legacy, true)
  {
    var data := plaintext[1..];
    var head, tail := data[..FirstCap(legacy)], data[FirstCap(legacy)..];
    var first := FirstHeader(legacy, plaintext[0], false) + head;
    assert first[if legacy then 2 else 3..] == head;
    FirstIsNotLast(plaintext, legacy);
    ContinuationsCompleteRun(cfg, [first], plaintext[0], head, tail, legacy);
    assert head + tail == data;
  }

  /** One outgoing message and the framing in use when it is sent. */
  datatype Outgoing = Outgoing(message: Message, legacy: bool)

  /** All frames of a list of sends; the send lock keeps each message's frames together. */
  function FramesOfAll(out: seq<Outgoing>): seq<seq<Byte>> {
    if out == [] then []
    else Frames(Plaintext(out[0].message), out[0].legacy) + FramesOfAll(out[1..])
  }

  /** A send the receiver can follow: accepted, decodable text, and legacy framing only on opt-in. */
  predicate Sendable(cfg: Config, o: Outgoing) {
    && Accepted(o.message)
    && (o.message.Text? ==> cfg.utf8(o.message.body))
    && (o.legacy ==> cfg.acceptLegacy)
  }

  // The transport does not reserve type byte 0 for binary sends, though it marks JSON bodies.
  predicate LooksLikeJson(m: Message) { m.Binary? && m.data != [] && m.data[0] == MSG_TYPE_JSON_BODY }

  predicate WithinBound(m: Message) { |Plaintext(m)| <= 1 + MAX_REASSEMBLED_MESSAGE_BYTES }

  /** Any sendable message within the bound comes out as one event, the dispatch of its plaintext. */
  lemma WithinBoundReceived(cfg: Config, o: Outgoing)
    requires Sendable(cfg, o) && WithinBound(o.message)
    ensures ReceiveFrames(cfg, Frames(Plaintext(o.message), o.legacy))
      == Reception(Idle, [Dispatch(cfg, Plaintext(o.message))])
  {
    var plaintext := Plaintext(o.message);
    if |plaintext| <= MAX_TRANSPORT_PLAINTEXT {
      ConcatEmpty([plaintext]);
      ReceiveFramesOneMore(cfg, [], plaintext);
      assert ReceiveFrames(cfg, []) == Reception(Idle, []);
      ConcatEmpty([Dispatch(cfg, plaintext)]);
    } else {
      FragmentsAreCompleteRun(cfg, plaintext, o.legacy);
      RunReceived(cfg, Fragments(plaintext, o.legacy));
      assert [plaintext[0]] + plaintext[1..] == plaintext;
    }
  }

  lemma DispatchedIsMessage(cfg: Config, o: Outgoing)
    requires Sendable(cfg, o)
    ensures Dispatch(cfg, Plaintext(o.message)) == Delivered(o.message) <==> !LooksLikeJson(o.message)
  {
    if o.message.Text? {
      assert Plaintext(o.message)[1..] == o.message.body;
    }
  }

  function AllDelivered(out: seq<Outgoing>): seq<Event> {
    seq(|out|, i requires 0 <= i < |out| => Delivered(out[i].message))
  }

  lemma AllDeliveredFirst(out: seq<Outgoing>)
    requires out != []
    ensures AllDelivered(out) == [Delivered(out[0].message)] + AllDelivered(out[1..])
  {
  }

  /**
   The round trip: an idle receiver turns the concatenated frames of any list of accepted
   messages with bodies up to 64 MiB back into exactly that list, and ends idle.
   */
  lemma {:induction false} StreamRoundTrip(cfg: Config, out: seq<Outgoing>)
    requires forall o :: o in out ==> Sendable(cfg, o) && WithinBound(o.message) && !LooksLikeJson(o.message)
    ensures ReceiveFrames(cfg, FramesOfAll(out)) == Reception(Idle, AllDelivered(out))
  {
    if out != [] {
      WithinBoundReceived(cfg, out[0]);
      DispatchedIsMessage(cfg, out[0]);
      StreamRoundTrip(cfg, out[1..]);
      ReceiveFramesAppend(cfg, Frames(Plaintext(out[0].message), out[0].legacy), FramesOfAll(out[1..]));
      AllDeliveredFirst(out);
    }
  }

  /** Every frame fits one Noise transport message, and all but the last fill one. */
  predicate FullButLast(frames: seq<seq<Byte>>) {
    forall i :: 0 <= i < |frames| ==> |frames[i]| <= 65519 && (i < |frames| - 1 ==> |frames[i]| == 65519)
  }

  lemma OneMoreFull(frame: seq<Byte>, rest: seq<seq<Byte>>)
    requires FullButLast(rest) && |frame| <= 65519 && (rest != [] ==> |frame| == 65519)
    ensures FullButLast([frame] + rest)
  {
  }

  /** So does everything a send emits. */
  lemma FramesFitTransport(plaintext: seq<Byte>, legacy: bool)
    ensures FullButLast(Frames(plaintext, legacy))
  {
    if |plaintext| > MAX_TRANSPORT_PLAINTEXT {
      var data, cap := plaintext[1..], FirstCap(legacy);
      ContinuationsFit(data[cap..], legacy);
      OneMoreFull(FirstHeader(legacy, plaintext[0], |data| <= cap) + data[..cap], Continuations(data[cap..], legacy));
    }
  }

  lemma {:induction false} ContinuationsFit(data: seq<Byte>, legacy: bool)
    ensures FullButLast(Continuations(data, legacy))
    decreases |data|
  {
    if data != [] {
      var rest := data[|NextPiece(data, legacy)|..];
      ContinuationsFit(rest, legacy);
      OneMoreFull(NextFrame(data, legacy), Continuations(rest, legacy));
    }
  }

  // ---------------------------------------------------------------- beyond the size bound

  ghost predicate OnlyViolations(events: seq<Event>) { forall e :: e in events ==> e == Violation }

  /** A frame received first, then the rest. */
  lemma ReceiveFirst(cfg: Config, st: State, frame: seq<Byte>, rest: seq<seq<Byte>>, next: State, first: seq<Event>)
    requires OneMore(cfg, Reception(st, []), Sealed(Some(frame))) == Reception(next, first)
    ensures var after := ReceiveAll(cfg, Reception(next, []), Opened(rest));
      ReceiveAll(cfg, Reception(st, []), Opened([frame] + rest)) == Reception(after.state, first + after.events)
  {
    OpenedAppend([frame], rest);
    var raw := Sealed(Some(frame));
    assert Opened([frame]) == [raw];
    ReceiveAllAppend(cfg, Reception(st, []), [raw], Opened(rest));
    assert [raw][..0] == [];
    assert ReceiveAll(cfg, Reception(st, []), [raw]) == Reception(next, first);
    EarlierEventsKept(cfg, Reception(next, first), Opened(rest));
  }

  /** A continuation of the message in flight. */
  lemma ContinuationReceived(cfg: Config, st: State, rest: seq<Byte>)
    requires st.InFlight? && (st.legacy ==> cfg.acceptLegacy)
    ensures OneMore(cfg, Reception(st, []), Sealed(Some(NextFrame(rest, st.legacy)))) ==
      var piece := NextPiece(rest, st.legacy);
      if |st.data| + |piece| > MAX_REASSEMBLED_MESSAGE_BYTES then Reception(Idle, [Violation])
      else if |rest| <= ContinuationCap(st.legacy) then
        Reception(Idle, [Dispatch(cfg, [st.origType] + st.data + piece)])
      else Reception(InFlight(st.origType, st.data + piece, st.legacy), [])
  {
    NextFrameClassified(cfg, rest, st.legacy);
  }

  /** Once a stream has lost its start, fragment continuations only raise violations. */
  lemma {:induction false} OrphansOnlyViolate(cfg: Config, rest: seq<Byte>)
    ensures var end := ReceiveFrames(cfg, Continuations(rest, false));
      end.state == Idle && OnlyViolations(end.events)
    decreases |rest|
  {
    if rest != [] {
      var tail := rest[|NextPiece(rest, false)|..];
      NextFrameClassified(cfg, rest, false);
      ReceiveFirst(cfg, Idle, NextFrame(rest, false), Continuations(tail, false), Idle, [Violation]);
      OrphansOnlyViolate(cfg, tail);
    }
  }

  /** What is left to send of `rest` behind the frame that takes the buffer past the bound. */
  function Overflowed(before: nat, rest: seq<Byte>, legacy: bool): seq<Byte>
    requires before <= MAX_REASSEMBLED_MESSAGE_BYTES < before + |rest|
    decreases |rest|
  {
    var piece := NextPiece(rest, legacy);
    var tail := rest[|piece|..];
    if before + |piece| > MAX_REASSEMBLED_MESSAGE_BYTES then tail else Overflowed(before + |piece|, tail, legacy)
  }

  /** From `st`, `frames` raise one violation, and an idle receiver takes those of them that are `left`. */
  ghost predicate GivesUp(cfg: Config, st: State, frames: seq<seq<Byte>>, left: seq<seq<Byte>>) {
    var end := ReceiveFrames(cfg, left);
    ReceiveAll(cfg, Reception(st, []), Opened(frames)) == Reception(end.state, [Violation] + end.events)
  }

  lemma GivesUpNow(cfg: Config, st: State, frame: seq<Byte>, more: seq<seq<Byte>>)
    requires OneMore(cfg, Reception(st, []), Sealed(Some(frame))) == Reception(Idle, [Violation])
    ensures GivesUp(cfg, st, [frame] + more, more)
  {
    ReceiveFirst(cfg, st, frame, more, Idle, [Violation]);
  }

  lemma GivesUpLater(
      cfg: Config, st: State, frame: seq<Byte>, more: seq<seq<Byte>>, next: State, left: seq<seq<Byte>>)
    requires OneMore(cfg, Reception(st, []), Sealed(Some(frame))) == Reception(next, [])
    requires GivesUp(cfg, next, more, left)
    ensures GivesUp(cfg, st, [frame] + more, left)
  {
    ReceiveFirst(cfg, st, frame, more, next, []);
    ConcatEmpty(ReceiveAll(cfg, Reception(next, []), Opened(more)).events);
  }

  lemma OverflowedFirst(before: nat, rest: seq<Byte>, legacy: bool)
    requires before <= MAX_REASSEMBLED_MESSAGE_BYTES < before + |rest|
    ensures var piece := NextPiece(rest, legacy);
      var tail := rest[|piece|..];
      && Continuations(rest, legacy) == [NextFrame(rest, legacy)] + Continuations(tail, legacy)
      && (before + |piece| > MAX_REASSEMBLED_MESSAGE_BYTES ==> Overflowed(before, rest, legacy) == tail)
      && (before + |piece| <= MAX_REASSEMBLED_MESSAGE_BYTES ==>
            |rest| > ContinuationCap(legacy) &&
            Overflowed(before, rest, legacy) == Overflowed(before + |piece|, tail, legacy))
  {
  }

  /** Past the bound, one violation; an idle receiver then takes the frames that are left. */
  lemma {:induction false} OverflowReceived(
      cfg: Config, st: State, rest: seq<Byte>, frames: seq<seq<Byte>>, left: seq<seq<Byte>>)
    requires st.InFlight? && |st.data| <= MAX_REASSEMBLED_MESSAGE_BYTES < |st.data| + |rest|
    requires st.legacy ==> cfg.acceptLegacy
    requires frames == Continuations(rest, st.legacy)
    requires left == Continuations(Overflowed(|st.data|, rest, st.legacy), st.legacy)
    ensures GivesUp(cfg, st, frames, left)
    decreases |rest|
  {
    var frame, piece := NextFrame(rest, st.legacy), NextPiece(rest, st.legacy);
    var tail := rest[|piece|..];
    var more, next := Continuations(tail, st.legacy), st.(data := st.data + piece);
    ContinuationReceived(cfg, st, rest);
    OverflowedFirst(|st.data|, rest, st.legacy);
    if |st.data| + |piece| > MAX_REASSEMBLED_MESSAGE_BYTES {
      GivesUpNow(cfg, st, frame, more);
    } else {
      OverflowReceived(cfg, next, tail, more, left);
      GivesUpLater(cfg, st, frame, more, next, left);
    }
  }

  /** What is left to send of an oversize message when the receiver gives it up. */
  function GivenUp(plaintext: seq<Byte>, legacy: bool): seq<Byte>
    requires |plaintext| > 1 + MAX_REASSEMBLED_MESSAGE_BYTES
  {
    Overflowed(FirstCap(legacy), plaintext[1..][FirstCap(legacy)..], legacy)
  }

  lemma FirstReceived(cfg: Config, plaintext: seq<Byte>, legacy: bool)
    requires |plaintext| > 1 + MAX_REASSEMBLED_MESSAGE_BYTES && !IsTransportType(plaintext[0])
    requires legacy ==> cfg.acceptLegacy
    ensures var head := plaintext[1..][..FirstCap(legacy)];
      var first := FirstHeader(legacy, plaintext[0], false) + head;
      OneMore(cfg, Reception(Idle, []), Sealed(Some(first))) == Reception(InFlight(plaintext[0], head, legacy), [])
  {
    var head := plaintext[1..][..FirstCap(legacy)];
    var first := FirstHeader(legacy, plaintext[0], false) + head;
    assert first[if legacy then 2 else 3..] == head;
    assert Classify(cfg, false, first) == Start(legacy, plaintext[0], head, false);
    ConcatEmpty(head);
  }

  lemma OversizeReceived(cfg: Config, plaintext: seq<Byte>, legacy: bool)
    requires |plaintext| > 1 + MAX_REASSEMBLED_MESSAGE_BYTES && !IsTransportType(plaintext[0])
    requires legacy ==> cfg.acceptLegacy
    ensures GivesUp(cfg, Idle, Fragments(plaintext, legacy), Continuations(GivenUp(plaintext, legacy), legacy))
  {
    var data, cap := plaintext[1..], FirstCap(legacy);
    var first := FirstHeader(legacy, plaintext[0], false) + data[..cap];
    var next := InFlight(plaintext[0], data[..cap], legacy);
    var more, left := Continuations(data[cap..], legacy), Continuations(GivenUp(plaintext, legacy), legacy);
    FirstReceived(cfg, plaintext, legacy);
    OverflowReceived(cfg, next, data[cap..], more, left);
    GivesUpLater(cfg, Idle, first, more, next, left);
    assert Fragments(plaintext, legacy) == [first] + more;
  }

  /** With the current framing nothing of an oversize message gets through. */
  lemma OversizeViolates(cfg: Config, plaintext: seq<Byte>)
    requires |plaintext| > 1 + MAX_REASSEMBLED_MESSAGE_BYTES && !IsTransportType(plaintext[0])
    ensures var end := ReceiveFrames(cfg, Fragments(plaintext, false));
      end.state == Idle && end.events != [] && OnlyViolations(end.events)
  {
    OversizeReceived(cfg, plaintext, false);
    OrphansOnlyViolate(cfg, GivenUp(plaintext, false));
  }

  // ---------------------------------------------------------------- beyond it with legacy framing

  /** Whether an idle receiver takes the next legacy continuation frame for the start of a message. */
  predicate Restarts(rest: seq<Byte>) { |rest| > ContinuationCap(true) && !IsTransportType(rest[0]) }

  lemma RestartClassified(cfg: Config, rest: seq<Byte>)
    requires cfg.acceptLegacy && Restarts(rest)
    ensures Classify(cfg, false, NextFrame(rest, true)) == Start(true, rest[0], rest[1..ContinuationCap(true)], false)
  {
    assert NextFrame(rest, true) == [MSG_TYPE_FRAGMENT_MORE] + rest[..ContinuationCap(true)];
    assert NextFrame(rest, true)[2..] == rest[1..ContinuationCap(true)];
  }

  /** A legacy continuation looks like a start whose message is the rest itself, first byte its type. */
  lemma RestartIsRun(cfg: Config, rest: seq<Byte>)
    requires cfg.acceptLegacy && Restarts(rest)
    ensures RunOf(cfg, Continuations(rest, true)) == Run(rest[0], rest[1..], true, true)
  {
    var cap := ContinuationCap(true);
    var first, tail := NextFrame(rest, true), rest[cap..];
    RestartClassified(cfg, rest);
    ContinuationsCompleteRun(cfg, [first], rest[0], rest[1..cap], tail, true);
    assert rest[1..cap] + tail == rest[1..];
  }

  lemma RestartHeader(rest: seq<Byte>, last: bool)
    requires |rest| > ContinuationCap(true)
    ensures NextFrame(rest, true) == FirstHeader(true, rest[0], last) + rest[1..][..FirstCap(true)]
  {
    assert NextPiece(rest, true) == rest[..ContinuationCap(true)];
    assert rest[..ContinuationCap(true)] == [rest[0]] + rest[1..][..FirstCap(true)];
  }

  /** And it looks exactly like the fragments of that message. */
  lemma RestartIsFragments(rest: seq<Byte>)
    requires |rest| > MAX_TRANSPORT_PLAINTEXT
    ensures Continuations(rest, true) == Fragments(rest, true)
  {
    var data, tail := rest[1..], rest[ContinuationCap(true)..];
    RestartHeader(rest, |data| <= FirstCap(true));
    assert data[FirstCap(true)..] == tail;
    assert Continuations(rest, true) == [NextFrame(rest, true)] + Continuations(tail, true);
  }

  lemma OverflowedShrinks(before: nat, rest: seq<Byte>, legacy: bool)
    requires before <= MAX_REASSEMBLED_MESSAGE_BYTES < before + |rest|
    ensures |Overflowed(before, rest, legacy)| < |rest|
    decreases |rest|
  {
    var piece := NextPiece(rest, legacy);
    if before + |piece| <= MAX_REASSEMBLED_MESSAGE_BYTES {
      OverflowedShrinks(before + |piece|, rest[|piece|..], legacy);
    }
  }

  /** What an idle receiver returns for the legacy continuation frames of `rest`. */
  function Stray(cfg: Config, rest: seq<Byte>): seq<Event>
    decreases |rest|
  {
    if rest == [] then []
    else if !Restarts(rest) then [Violation] + Stray(cfg, rest[|NextPiece(rest, true)|..])
    else if |rest| <= 1 + MAX_REASSEMBLED_MESSAGE_BYTES then [Dispatch(cfg, rest)]
    else
      OverflowedShrinks(FirstCap(true), rest[1..][FirstCap(true)..], true);
      [Violation] + Stray(cfg, GivenUp(rest, true))
  }

  lemma {:induction false} StrayReceived(cfg: Config, rest: seq<Byte>)
    requires cfg.acceptLegacy
    ensures ReceiveFrames(cfg, Continuations(rest, true)) == Reception(Idle, Stray(cfg, rest))
    decreases |rest|
  {
    if rest == [] {
    } else if !Restarts(rest) {
      var tail := rest[|NextPiece(rest, true)|..];
      ReceiveFirst(cfg, Idle, NextFrame(rest, true), Continuations(tail, true), Idle, [Violation]);
      StrayReceived(cfg, tail);
    } else if |rest| <= 1 + MAX_REASSEMBLED_MESSAGE_BYTES {
      RestartIsRun(cfg, rest);
      RunReceived(cfg, Continuations(rest, true));
      assert [rest[0]] + rest[1..] == rest;
    } else {
      RestartIsFragments(rest);
      OversizeReceived(cfg, rest, true);
      OverflowedShrinks(FirstCap(true), rest[1..][FirstCap(true)..], true);
      StrayReceived(cfg, GivenUp(rest, true));
    }
  }

  /**
   With legacy framing the tail of an oversize message can be delivered as a message nobody sent: the
   receiver is idle after the violation, and takes the next frame for a start unless its data begins
   with a transport type.
   */
  lemma LegacyTailDelivered(cfg: Config, plaintext: seq<Byte>)
    requires |plaintext| > 1 + MAX_REASSEMBLED_MESSAGE_BYTES && !IsTransportType(plaintext[0]) && cfg.acceptLegacy
    requires var tail := GivenUp(plaintext, true); Restarts(tail) && |tail| <= 1 + MAX_REASSEMBLED_MESSAGE_BYTES
    ensures ReceiveFrames(cfg, Fragments(plaintext, true))
      == Reception(Idle, [Violation, Dispatch(cfg, GivenUp(plaintext, true))])
  {
    OversizeReceived(cfg, plaintext, true);
    StrayReceived(cfg, GivenUp(plaintext, true));
  }

  /** The receiver gives up after 1024 full continuations, the one that goes past the bound included. */
  lemma GivenUpIs(plaintext: seq<Byte>)
    requires |plaintext| > 1 + MAX_REASSEMBLED_MESSAGE_BYTES
    ensures var taken := FirstCap(true) + 1024 * ContinuationCap(true);
      GivenUp(plaintext, true) == if |plaintext| <= 1 + taken then [] else plaintext[1 + taken..]
  {
    var taken := FirstCap(true) + 1024 * ContinuationCap(true);
    GivenUpFrom(plaintext[1..], 0, FirstCap(true), taken);
    if |plaintext| > 1 + taken { assert plaintext[1..][taken..] == plaintext[1 + taken..]; }
  }

  lemma OverflowedStep(data: seq<Byte>, sent: nat)
    requires sent <= MAX_REASSEMBLED_MESSAGE_BYTES < |data|
    ensures var next := sent + ContinuationCap(true);
      Overflowed(sent, data[sent..], true) ==
        if next <= MAX_REASSEMBLED_MESSAGE_BYTES then Overflowed(next, data[next..], true)
        else if |data| <= next then [] else data[next..]
  {
    var piece := NextPiece(data[sent..], true);
    assert data[sent..][|piece|..] == data[sent + |piece|..];
  }

  lemma {:induction false} GivenUpFrom(data: seq<Byte>, k: nat, sent: nat, taken: nat)
    requires k <= 1023 && |data| > MAX_REASSEMBLED_MESSAGE_BYTES
    requires sent == FirstCap(true) + k * ContinuationCap(true)
    requires taken == FirstCap(true) + 1024 * ContinuationCap(true)
    ensures Overflowed(sent, data[sent..], true) == if |data| <= taken then [] else data[taken..]
    decreases 1023 - k
  {
    var next := sent + ContinuationCap(true);
    assert next <= MAX_REASSEMBLED_MESSAGE_BYTES <==> k < 1023;
    assert k == 1023 ==> next == taken;
    OverflowedStep(data, sent);
    if k < 1023 { GivenUpFrom(data, k + 1, next, taken); }
  }

  /**
   Exactly which messages come back, with either framing. The sender checks neither the size bound nor
   a binary type byte 0, so a message is delivered as sent, and nothing besides, if and only if its body
   is within 64 MiB and it is not binary data of type 0. Past the bound a violation is always raised.
   */
  lemma RoundTripIff(cfg: Config, o: Outgoing)
    requires Sendable(cfg, o)
    ensures var end := ReceiveFrames(cfg, Frames(Plaintext(o.message), o.legacy));
      && end.state == Idle
      && (end.events == [Delivered(o.message)] <==> WithinBound(o.message) && !LooksLikeJson(o.message))
      && (!WithinBound(o.message) ==> Violation in end.events && (!o.legacy ==> OnlyViolations(end.events)))
  {
    var plaintext := Plaintext(o.message);
    if WithinBound(o.message) {
      WithinBoundReceived(cfg, o);
      DispatchedIsMessage(cfg, o);
    } else {
      OversizeReceived(cfg, plaintext, o.legacy);
      if o.legacy {
        StrayReceived(cfg, GivenUp(plaintext, true));
      } else {
        OrphansOnlyViolate(cfg, GivenUp(plaintext, false));
      }
      var end := ReceiveFrames(cfg, Frames(plaintext, o.legacy));
      assert end.events[0] == Violation;
    }
  }
}
