/**
 Artwork transfers: an image travels as an announce and parts, and is shown when its time comes.
 */
module Artwork {
  import opened Common

  const ARTWORK_FLAG_CANCEL: Byte := 1
  const ARTWORK_FLAG_ANNOUNCE: Byte := 2
  const ARTWORK_MAX_MESSAGE_SIZE := 65519
  const ARTWORK_PREFIX_SIZE := 2
  const ARTWORK_MAX_PART_DATA_SIZE := ARTWORK_MAX_MESSAGE_SIZE - ARTWORK_PREFIX_SIZE
  const ARTWORK_ANNOUNCE_SIZE := 14
  const ARTWORK_CHANNEL_0 := 8

  type Channel = x: int | 0 <= x <= 3
  type Timestamp = x: int | -0x8000_0000_0000_0000 <= x < 0x8000_0000_0000_0000
  type Size = x: int | 0 <= x < 0x1_0000_0000

  // ---------------------------------------------------------------- big-endian fields

  function Power(width: nat): (p: nat)
    ensures p >= 1
  {
    if width == 0 then 1 else 256 * Power(width - 1)
  }

  function Encode(n: nat, width: nat): (s: seq<Byte>)
    ensures |s| == width
  {
    if width == 0 then [] else Encode(n / 256, width - 1) + [n % 256]
  }

  function Decode(s: seq<Byte>): nat {
    if s == [] then 0 else 256 * Decode(s[..|s| - 1]) + s[|s| - 1]
  }

  lemma {:induction false} EncodeDecodes(n: nat, width: nat)
    requires n < Power(width)
    ensures Decode(Encode(n, width)) == n
  {
    if width > 0 {
      EncodeDecodes(n / 256, width - 1);
      assert Encode(n, width)[..width - 1] == Encode(n / 256, width - 1);
    }
  }

  lemma {:induction false} DecodeEncodes(s: seq<Byte>)
    ensures Decode(s) < Power(|s|) && Encode(Decode(s), |s|) == s
    decreases |s|
  {
    if s != [] {
      var front, last := s[..|s| - 1], s[|s| - 1];
      DecodeEncodes(front);
      assert Decode(s) / 256 == Decode(front) && Decode(s) % 256 == last;
      assert s == front + [last];
    }
  }

  /** Two's complement over eight bytes. */
  function Unsigned(t: Timestamp): nat { if t < 0 then t + 0x1_0000_0000_0000_0000 else t }

  function Signed(n: nat): Timestamp
    requires n < 0x1_0000_0000_0000_0000
  {
    if n < 0x8000_0000_0000_0000 then n else n - 0x1_0000_0000_0000_0000
  }

  lemma Powers()
    ensures Power(4) == 0x1_0000_0000 && Power(8) == 0x1_0000_0000_0000_0000
  {
    assert Power(2) == 0x1_0000;
    assert Power(4) == 256 * (256 * Power(2));
    assert Power(6) == 256 * (256 * Power(4));
    assert Power(8) == 256 * (256 * Power(6));
  }

  // ---------------------------------------------------------------- messages

  datatype Announce = Announce(channel: Channel, timestampUs: Timestamp, totalSize: Size)

  function PackAnnounce(a: Announce): (data: seq<Byte>)
    ensures |data| == ARTWORK_ANNOUNCE_SIZE
  {
    [ARTWORK_CHANNEL_0 + a.channel, ARTWORK_FLAG_ANNOUNCE] + Encode(Unsigned(a.timestampUs), 8) + Encode(a.totalSize, 4)
  }

  function UnpackAnnounce(data: seq<Byte>): Option<Announce> {
    if |data| != ARTWORK_ANNOUNCE_SIZE then None
    else
      var channel, flags := data[0] - ARTWORK_CHANNEL_0, data[1];
      if !(0 <= channel <= 3) || flags != ARTWORK_FLAG_ANNOUNCE then None
      else
        Fields(data);
        Some(Announce(channel, Signed(Decode(data[2..10])), Decode(data[10..14])))
  }

  lemma Fields(data: seq<Byte>)
    requires |data| == ARTWORK_ANNOUNCE_SIZE
    ensures Decode(data[2..10]) < 0x1_0000_0000_0000_0000 && Decode(data[10..14]) < 0x1_0000_0000
  {
    Powers();
    DecodeEncodes(data[2..10]);
    DecodeEncodes(data[10..14]);
  }

  /** Packing an announce and unpacking it gives it back. */
  lemma AnnounceRoundTrip(a: Announce)
    ensures UnpackAnnounce(PackAnnounce(a)) == Some(a)
  {
    var data := PackAnnounce(a);
    Powers();
    EncodeDecodes(Unsigned(a.timestampUs), 8);
    EncodeDecodes(a.totalSize, 4);
    assert data[2..10] == Encode(Unsigned(a.timestampUs), 8);
    assert data[10..14] == Encode(a.totalSize, 4);
  }

  /** No other bytes unpack to it: the announce of a given image is unique on the wire. */
  lemma AnnounceUnique(data: seq<Byte>)
    requires UnpackAnnounce(data).Some?
    ensures data == PackAnnounce(UnpackAnnounce(data).value)
  {
    Fields(data);
    DecodeEncodes(data[2..10]);
    DecodeEncodes(data[10..14]);
    assert data == [data[0], data[1]] + data[2..10] + data[10..14];
  }

  /** On the wire an announce is its channel and flag, its timestamp in two's complement, and its size. */
  lemma AnnounceLayout(a: Announce)
    ensures var data := PackAnnounce(a);
      && data[..2] == [8 + a.channel, 2]
      && Decode(data[2..10]) == (if a.timestampUs >= 0 then a.timestampUs else 0x1_0000_0000_0000_0000 + a.timestampUs)
      && Decode(data[10..]) == a.totalSize
  {
    var data := PackAnnounce(a);
    Powers();
    EncodeDecodes(Unsigned(a.timestampUs), 8);
    EncodeDecodes(a.totalSize, 4);
    assert data[2..10] == Encode(Unsigned(a.timestampUs), 8);
    assert data[10..] == Encode(a.totalSize, 4);
  }

  /** Fields are big-endian, four bytes at a time. */
  lemma EncodeFour(n: nat, width: nat)
    ensures Encode(n, width + 4)
      == Encode(n / 0x1_0000_0000, width) + [n / 0x100_0000 % 256, n / 0x1_0000 % 256, n / 256 % 256, n % 256]
  {
    assert Encode(n, width + 4) == Encode(n / 256, width + 3) + [n % 256];
    assert Encode(n / 256, width + 3) == Encode(n / 256 / 256, width + 2) + [n / 256 % 256];
    assert n / 256 / 256 == n / 0x1_0000;
    assert Encode(n / 0x1_0000, width + 2) == Encode(n / 0x1_0000 / 256, width + 1) + [n / 0x1_0000 % 256];
    assert n / 0x1_0000 / 256 == n / 0x100_0000;
    assert Encode(n / 0x100_0000, width + 1) == Encode(n / 0x100_0000 / 256, width) + [n / 0x100_0000 % 256];
    assert n / 0x100_0000 / 256 == n / 0x1_0000_0000;
  }

  /** The image from `offset` on as part messages, all full but the last. */
  function PartsFrom(channel: Channel, image: seq<Byte>, offset: nat): seq<seq<Byte>>
    requires offset <= |image|
    decreases |image| - offset
  {
    if offset == |image| then []
    else
      var end := Min(offset + ARTWORK_MAX_PART_DATA_SIZE, |image|);
      [[ARTWORK_CHANNEL_0 + channel, 0] + image[offset..end]] + PartsFrom(channel, image, end)
  }

  method PackParts(channel: Channel, image: seq<Byte>) returns (parts: seq<seq<Byte>>)
    ensures parts == PartsFrom(channel, image, 0)
    ensures forall i :: 0 <= i < |parts| ==> Malformed(parts[i]) == false && |parts[i]| > ARTWORK_PREFIX_SIZE
  {
    parts := [];
    var prefix: seq<Byte> := [ARTWORK_CHANNEL_0 + channel, 0];
    var offset := 0;
    while offset < |image|
      invariant 0 <= offset <= |image|
      invariant parts + PartsFrom(channel, image, offset) == PartsFrom(channel, image, 0)
      invariant forall i :: 0 <= i < |parts| ==> Malformed(parts[i]) == false && |parts[i]| > ARTWORK_PREFIX_SIZE
    {
      var end := Min(offset + ARTWORK_MAX_PART_DATA_SIZE, |image|);
      ConcatAssociates(parts, [prefix + image[offset..end]], PartsFrom(channel, image, end));
      parts := parts + [prefix + image[offset..end]];
      offset := end;
    }
    ConcatEmpty(parts);
  }

  function PackCancel(channel: Channel): seq<Byte> { [ARTWORK_CHANNEL_0 + channel, ARTWORK_FLAG_CANCEL] }

  predicate CancelBit(flags: Byte) { flags % 2 == 1 }
  predicate AnnounceBit(flags: Byte) { flags / 2 % 2 == 1 }

  predicate Malformed(payload: seq<Byte>) {
    || !(ARTWORK_PREFIX_SIZE <= |payload| <= ARTWORK_MAX_MESSAGE_SIZE)
    || payload[1] / 4 != 0
    || (AnnounceBit(payload[1]) && CancelBit(payload[1]))
    || (AnnounceBit(payload[1]) && |payload| != ARTWORK_ANNOUNCE_SIZE)
    || (CancelBit(payload[1]) && |payload| != ARTWORK_PREFIX_SIZE)
  }

  predicate IsArtwork(payload: seq<Byte>) { payload != [] && ARTWORK_CHANNEL_0 <= payload[0] <= ARTWORK_CHANNEL_0 + 3 }

  /** Well-formed messages are exactly those the sending side can pack. */
  lemma WellFormedIff(payload: seq<Byte>)
    requires IsArtwork(payload)
    ensures !Malformed(payload) <==>
      var channel := payload[0] - ARTWORK_CHANNEL_0;
      || (exists a: Announce :: payload == PackAnnounce(a))
      || payload == PackCancel(channel)
      || IsPart(channel, payload)
  {
    var channel: Channel := payload[0] - ARTWORK_CHANNEL_0;
    if !Malformed(payload) && AnnounceBit(payload[1]) {
      var a := UnpackAnnounce(payload).value;
      AnnounceUnique(payload);
      assert payload == PackAnnounce(a);
    }
    forall a: Announce | payload == PackAnnounce(a) ensures !Malformed(payload) { AnnounceRoundTrip(a); }
  }

  predicate IsPart(channel: Channel, payload: seq<Byte>) {
    && ARTWORK_PREFIX_SIZE <= |payload| <= ARTWORK_PREFIX_SIZE + ARTWORK_MAX_PART_DATA_SIZE
    && payload[0] == ARTWORK_CHANNEL_0 + channel && payload[1] == 0
  }

  // ---------------------------------------------------------------- the receiver

  datatype Pending = Pending(
    timestampUs: Timestamp,
    totalSize: Size,
    data: seq<Byte>,
    received: nat,
    discarded: bool,  // not to be shown: some of it came in during an outage
    timed: bool)      // waits for its timestamp

  datatype Shown = Shown(channel: Channel, image: seq<Byte>)

  type Config(==, !new)

  /** The artwork state of a connection, with every notification of its listeners. */
  datatype Receiver = Receiver(
    active: bool,
    available: bool,
    pending: map<Channel, Pending>,
    inFlight: Option<Channel>,
    config: Option<seq<Config>>,
    shown: set<Channel>,
    notices: seq<Shown>,
    closing: bool)

  function ConfigOf(config: Option<seq<Config>>, channel: Channel): Option<Config> {
    if config.None? || channel >= |config.value| then None else Some(config.value[channel])
  }

  function Discard(r: Receiver, channel: Channel): Receiver {
    r.(pending := r.pending - {channel}, inFlight := if r.inFlight == Some(channel) then None else r.inFlight)
  }

  function Show(r: Receiver, channel: Channel): Receiver
    requires channel in r.pending
  {
    var image := r.pending[channel].data;
    r.(pending := r.pending - {channel},
       shown := if image != [] then r.shown + {channel} else r.shown - {channel},
       notices := r.notices + [Shown(channel, image)])
  }

  /** A complete image is shown when due, and waits otherwise; a discarded one is dropped. */
  function Schedule(r: Receiver, channel: Channel, due: bool): Receiver
    requires channel in r.pending
  {
    if r.pending[channel].discarded then r.(pending := r.pending - {channel})
    else if due then Show(r, channel)
    else r.(pending := r.pending[channel := r.pending[channel].(timed := true)])
  }

  function Settle(r: Receiver, channel: Channel, due: bool): Receiver
    requires channel in r.pending
  {
    if r.pending[channel].received == r.pending[channel].totalSize
    then Schedule(r.(inFlight := None), channel, due)
    else r
  }

  function Begin(r: Receiver, a: Announce, due: bool): Receiver {
    if r.inFlight.Some? then r.(closing := true)
    else
      var p := Pending(a.timestampUs, a.totalSize, [], 0, a.totalSize > 0 && !r.available, false);
      var d := Discard(r, a.channel);
      Settle(d.(pending := d.pending[a.channel := p], inFlight := Some(a.channel)), a.channel, due)
  }

  function Grown(p: Pending, data: seq<Byte>, available: bool): Pending {
    if p.discarded || !available then p.(received := p.received + |data|, discarded := true, data := [])
    else p.(received := p.received + |data|, data := p.data + data)
  }

  function Continue(r: Receiver, channel: Channel, data: seq<Byte>, due: bool): Receiver
    requires r.inFlight == Some(channel) ==> channel in r.pending
  {
    if r.inFlight != Some(channel) then r.(closing := true)
    else
      var p := r.pending[channel];
      if p.received + |data| > p.totalSize then
        r.(pending := r.pending[channel := p.(received := p.received + |data|)], closing := true)
      else
        Settle(r.(pending := r.pending[channel := Grown(p, data, r.available)]), channel, due)
  }

  /** One binary message of an artwork channel; `due` when the image's time has come on the local clock. */
  function Handled(r: Receiver, payload: seq<Byte>, due: bool): Receiver
    requires IsArtwork(payload)
    requires r.inFlight.Some? ==> r.inFlight.value in r.pending
  {
    var channel := payload[0] - ARTWORK_CHANNEL_0;
    if Malformed(payload) then r.(closing := true)
    else if !r.active then r
    else if CancelBit(payload[1]) then Discard(r, channel)
    else if AnnounceBit(payload[1]) then
      AnnounceShape(payload);
      Begin(r, UnpackAnnounce(payload).value, due)
    else Continue(r, channel, payload[ARTWORK_PREFIX_SIZE..], due)
  }

  /** A well-formed announce always unpacks. */
  lemma AnnounceShape(payload: seq<Byte>)
    requires IsArtwork(payload) && !Malformed(payload) && AnnounceBit(payload[1])
    ensures UnpackAnnounce(payload).Some?
  {
  }

  predicate SameConfig(r: Receiver, config: seq<Config>, c: Channel) {
    ConfigOf(Some(config), c) == ConfigOf(r.config, c)
  }

  /** What is left once the first `n` channels were compared with a new configuration. */
  function Compared(r: Receiver, config: seq<Config>, n: int): Receiver {
    r.(active := true,
       pending := map c | c in r.pending && (c >= n || SameConfig(r, config, c)) :: r.pending[c],
       inFlight :=
         if r.inFlight.Some? && r.inFlight.value < n && !SameConfig(r, config, r.inFlight.value)
         then None else r.inFlight)
  }

  lemma CompareNone(r: Receiver, config: seq<Config>)
    ensures Compared(r, config, 0) == r.(active := true)
  {
    assert Compared(r, config, 0).pending == r.pending;
  }

  /** One channel against a new stream's configuration. */
  function CompareChannel(r: Receiver, config: seq<Config>, c: Channel): Receiver {
    if c in r.pending && !SameConfig(r, config, c) then Discard(r, c) else r
  }

  lemma CompareOne(r: Receiver, config: seq<Config>, c: Channel)
    requires r.inFlight.Some? ==> r.inFlight.value in r.pending
    ensures var before := Compared(r, config, c);
      Compared(r, config, c + 1) == CompareChannel(before, config, c)
  {
    var before := Compared(r, config, c);
    assert Compared(r, config, c + 1).pending ==
      if c in before.pending && !SameConfig(r, config, c) then before.pending - {c} else before.pending;
  }

  /** A new stream configuration drops the pending images of the channels it changes. */
  function Configured(r: Receiver, config: seq<Config>): Receiver { Compared(r, config, 4).(config := Some(config)) }

  /** The listeners are told that the shown ones of the first `n` channels are clear, lowest first. */
  function Clears(shown: set<Channel>, n: nat): seq<Shown>
    requires n <= 4
  {
    if n == 0 then [] else Clears(shown, n - 1) + (if n - 1 in shown then [Shown(n - 1, [])] else [])
  }

  function Ended(r: Receiver): Receiver {
    r.(active := false, pending := map[], inFlight := None, config := None, shown := {},
      notices := r.notices + Clears(r.shown, 4))
  }

  datatype Step =
    | Message(payload: seq<Byte>, due: bool)
    | Timer(channel: Channel)
    | StreamStart(config: seq<Config>)
    | StreamEnd
    | Available(value: bool)

  predicate Enabled(r: Receiver, step: Step) {
    match step
    case Message(payload, _) => IsArtwork(payload)
    case Timer(channel) => channel in r.pending && r.pending[channel].timed
    case _ => true
  }

  function Next(r: Receiver, step: Step): Receiver
    requires Enabled(r, step)
    requires r.inFlight.Some? ==> r.inFlight.value in r.pending
  {
    match step
    case Message(payload, due) => Handled(r, payload, due)
    case Timer(channel) => Show(r, channel)
    case StreamStart(config) => Configured(r, config)
    case StreamEnd => Ended(r)
    case Available(value) => r.(available := value)
  }

  // ---------------------------------------------------------------- what every run keeps

  predicate Complete(p: Pending) { p.received == p.totalSize && !p.discarded && |p.data| == p.received && p.timed }

  predicate Partial(p: Pending) {
    p.received < p.totalSize && !p.timed && (if p.discarded then p.data == [] else |p.data| == p.received)
  }

  /**
   At most one transfer is in flight, short of its total; every other pending image is complete and waits for
   its time.
   */
  predicate Sound(r: Receiver) {
    && (r.inFlight.Some? ==> r.inFlight.value in r.pending && !r.pending[r.inFlight.value].timed)
    && (!r.closing ==> forall c :: c in r.pending ==>
      if r.inFlight == Some(c) then Partial(r.pending[c]) else Complete(r.pending[c]))
  }

  lemma SettleKeepsSound(r: Receiver, channel: Channel, due: bool)
    requires r.inFlight == Some(channel) && channel in r.pending
    requires forall c :: c in r.pending && c != channel ==> Complete(r.pending[c])
    requires var p := r.pending[channel];
      p.received <= p.totalSize && !p.timed && (if p.discarded then p.data == [] else |p.data| == p.received)
    ensures Sound(Settle(r, channel, due))
  {
  }

  lemma ContinueKeepsSound(r: Receiver, channel: Channel, data: seq<Byte>, due: bool)
    requires Sound(r)
    ensures Sound(Continue(r, channel, data, due))
  {
    if r.inFlight == Some(channel) && !r.closing {
      var p := r.pending[channel];
      if p.received + |data| <= p.totalSize {
        SettleKeepsSound(r.(pending := r.pending[channel := Grown(p, data, r.available)]), channel, due);
      }
    }
  }

  lemma BeginKeepsSound(r: Receiver, a: Announce, due: bool)
    requires Sound(r)
    ensures Sound(Begin(r, a, due))
  {
    if r.inFlight.None? && !r.closing {
      var p := Pending(a.timestampUs, a.totalSize, [], 0, a.totalSize > 0 && !r.available, false);
      var d := Discard(r, a.channel);
      SettleKeepsSound(d.(pending := d.pending[a.channel := p], inFlight := Some(a.channel)), a.channel, due);
    }
  }

  /** Every message, timer, stream start or end and availability change keeps that. */
  lemma StepKeepsSound(r: Receiver, step: Step)
    requires Sound(r) && Enabled(r, step)
    ensures Sound(Next(r, step))
  {
    match step
    case Message(payload, due) =>
      if !Malformed(payload) && r.active && !CancelBit(payload[1]) {
        if AnnounceBit(payload[1]) {
          AnnounceShape(payload);
          BeginKeepsSound(r, UnpackAnnounce(payload).value, due);
        } else {
          ContinueKeepsSound(r, payload[0] - ARTWORK_CHANNEL_0, payload[ARTWORK_PREFIX_SIZE..], due);
        }
      }
    case _ =>
  }

  predicate CanRun(r: Receiver, steps: seq<Step>)
    requires Sound(r)
    decreases |steps|
  {
    steps == [] ||
    (Enabled(r, steps[0]) && (StepKeepsSound(r, steps[0]); CanRun(Next(r, steps[0]), steps[1..])))
  }

  /** The receiver after a run of steps. */
  function After(r: Receiver, steps: seq<Step>): (end: Receiver)
    requires Sound(r) && CanRun(r, steps)
    ensures Sound(end)
    decreases |steps|
  {
    if steps == [] then r
    else
      StepKeepsSound(r, steps[0]);
      After(Next(r, steps[0]), steps[1..])
  }

  // ---------------------------------------------------------------- whole images

  /** The channel has received the image up to `offset`, and its transfer is in flight. */
  predicate Receiving(r: Receiver, channel: Channel, timestampUs: Timestamp, image: seq<Byte>, offset: nat) {
    && !r.closing && r.active && r.available && r.inFlight == Some(channel) && channel in r.pending
    && offset < |image| < 0x1_0000_0000
    && r.pending[channel] == Pending(timestampUs, |image|, image[..offset], offset, false, false)
  }

  /** The channel's image is exactly this one: waiting for its time, or shown to the listeners when that has come. */
  predicate Arrived(r: Receiver, channel: Channel, timestampUs: Timestamp, image: seq<Byte>, due: bool) {
    && !r.closing && r.inFlight == None
    && |image| < 0x1_0000_0000
    && if due then
         channel !in r.pending && r.notices != [] && r.notices[|r.notices| - 1] == Shown(channel, image)
         && (channel in r.shown <==> image != [])
       else
         channel in r.pending && r.pending[channel] == Pending(timestampUs, |image|, image, |image|, false, true)
  }

  lemma PartShape(channel: Channel, data: seq<Byte>)
    requires |data| <= ARTWORK_MAX_PART_DATA_SIZE
    ensures var part := [ARTWORK_CHANNEL_0 + channel, 0] + data;
      && IsArtwork(part) && !Malformed(part) && !CancelBit(part[1]) && !AnnounceBit(part[1])
      && part[ARTWORK_PREFIX_SIZE..] == data
  {
  }

  /** The next part extends the image, and the last one completes it. */
  lemma PartAdvances(r: Receiver, channel: Channel, timestampUs: Timestamp, image: seq<Byte>, offset: nat, due: bool)
    requires Sound(r) && Receiving(r, channel, timestampUs, image, offset)
    ensures var end := Min(offset + ARTWORK_MAX_PART_DATA_SIZE, |image|);
      var part := [ARTWORK_CHANNEL_0 + channel, 0] + image[offset..end];
      && IsArtwork(part)
      && (if end < |image| then Receiving(Handled(r, part, due), channel, timestampUs, image, end)
          else Arrived(Handled(r, part, due), channel, timestampUs, image, due))
  {
    var end := Min(offset + ARTWORK_MAX_PART_DATA_SIZE, |image|);
    PartShape(channel, image[offset..end]);
    assert image[..offset] + image[offset..end] == image[..end];
    if end == |image| { assert image[..end] == image; }
  }

  /** A message of the channel itself. */
  predicate Own(step: Step, channel: Channel) {
    step.Message? && step.payload != [] && step.payload[0] == ARTWORK_CHANNEL_0 + channel
  }

  /** What may happen between the messages of a transfer. */
  predicate Harmless(r: Receiver, step: Step, channel: Channel) {
    match step
    case Message(payload, _) => IsArtwork(payload) && !Malformed(payload) && CancelBit(payload[1])
    case Timer(_) => true
    case StreamStart(config) => SameConfig(r, config, channel)
    case StreamEnd => false
    case Available(value) => value
  }

  /** Every step is one of the channel's messages, or harmless to a transfer of the channel. */
  predicate Undisturbed(r: Receiver, steps: seq<Step>, channel: Channel)
    requires Sound(r) && CanRun(r, steps)
    decreases |steps|
  {
    steps == [] ||
    ((Own(steps[0], channel) || Harmless(r, steps[0], channel)) &&
     (StepKeepsSound(r, steps[0]); Undisturbed(Next(r, steps[0]), steps[1..], channel)))
  }

  /** The channel's messages of a run. */
  function OwnOf(steps: seq<Step>, channel: Channel): seq<seq<Byte>> {
    if steps == [] then []
    else (if Own(steps[0], channel) then [steps[0].payload] else []) + OwnOf(steps[1..], channel)
  }

  lemma {:induction false} LastIsOwn(steps: seq<Step>, channel: Channel)
    requires steps != [] && Own(steps[|steps| - 1], channel)
    ensures OwnOf(steps, channel) != []
    decreases |steps|
  {
    if |steps| > 1 { LastIsOwn(steps[1..], channel); }
  }

  /** Timers and cancels of other channels, and streams that keep the channel's configuration, change nothing for it. */
  lemma HarmlessKeepsReceiving(
    r: Receiver, step: Step, channel: Channel, timestampUs: Timestamp, image: seq<Byte>, offset: nat)
    requires Sound(r) && Enabled(r, step) && Receiving(r, channel, timestampUs, image, offset)
    requires Harmless(r, step, channel) && !Own(step, channel)
    ensures Receiving(Next(r, step), channel, timestampUs, image, offset)
  {
  }

  lemma {:induction false} PartsComplete(
    r: Receiver, steps: seq<Step>, channel: Channel, timestampUs: Timestamp, image: seq<Byte>, offset: nat)
    requires Sound(r) && Receiving(r, channel, timestampUs, image, offset)
    requires CanRun(r, steps) && Undisturbed(r, steps, channel)
    requires steps != [] && Own(steps[|steps| - 1], channel)
    requires OwnOf(steps, channel) == PartsFrom(channel, image, offset)
    ensures Arrived(After(r, steps), channel, timestampUs, image, steps[|steps| - 1].due)
    decreases |steps|
  {
    var step, rest := steps[0], steps[1..];
    StepKeepsSound(r, step);
    if !Own(step, channel) {
      HarmlessKeepsReceiving(r, step, channel, timestampUs, image, offset);
      ConcatEmpty(OwnOf(rest, channel));
      PartsComplete(Next(r, step), rest, channel, timestampUs, image, offset);
    } else {
      var end := Min(offset + ARTWORK_MAX_PART_DATA_SIZE, |image|);
      var part := [ARTWORK_CHANNEL_0 + channel, 0] + image[offset..end];
      OwnFirst(steps, channel, part, PartsFrom(channel, image, end));
      PartAdvances(r, channel, timestampUs, image, offset, step.due);
      if end < |image| {
        assert rest != [];
        PartsComplete(Next(r, step), rest, channel, timestampUs, image, end);
      } else if rest != [] {
        LastIsOwn(rest, channel);
        assert false;
      }
    }
  }

  lemma OwnFirst(steps: seq<Step>, channel: Channel, first: seq<Byte>, more: seq<seq<Byte>>)
    requires steps != [] && Own(steps[0], channel) && OwnOf(steps, channel) == [first] + more
    ensures steps[0].payload == first && OwnOf(steps[1..], channel) == more
  {
    var own := OwnOf(steps, channel);
    assert own == [steps[0].payload] + OwnOf(steps[1..], channel);
    assert own[0] == first && own[1..] == more;
    assert own[1..] == OwnOf(steps[1..], channel);
  }

  lemma AnnounceStarts(r: Receiver, step: Step, channel: Channel, timestampUs: Timestamp, image: seq<Byte>)
    requires Sound(r) && !r.closing && r.active && r.available && r.inFlight == None && |image| < 0x1_0000_0000
    requires step.Message? && step.payload == PackAnnounce(Announce(channel, timestampUs, |image|))
    ensures IsArtwork(step.payload)
    ensures if image == [] then Arrived(Next(r, step), channel, timestampUs, image, step.due)
      else Receiving(Next(r, step), channel, timestampUs, image, 0)
  {
    var a := Announce(channel, timestampUs, |image|);
    AnnounceRoundTrip(a);
    assert Next(r, step) == Begin(r, a, step.due);
    assert image[..0] == [];
  }

  /**
   Any image sent as announce and parts, over an active stream with no transfer in flight and to an
   available client, arrives byte for byte; the empty one clears the channel. Timers and cancels of
   other channels, availability reports and streams that keep the channel's configuration may come
   anywhere in between.
   */
  lemma ImageArrives(r: Receiver, steps: seq<Step>, channel: Channel, timestampUs: Timestamp, image: seq<Byte>)
    requires Sound(r) && !r.closing && r.active && r.available && r.inFlight == None && |image| < 0x1_0000_0000
    requires CanRun(r, steps) && Undisturbed(r, steps, channel)
    requires steps != [] && Own(steps[0], channel) && Own(steps[|steps| - 1], channel)
    requires OwnOf(steps, channel)
      == [PackAnnounce(Announce(channel, timestampUs, |image|))] + PartsFrom(channel, image, 0)
    ensures Arrived(After(r, steps), channel, timestampUs, image, steps[|steps| - 1].due)
  {
    var step, rest := steps[0], steps[1..];
    OwnFirst(steps, channel, PackAnnounce(Announce(channel, timestampUs, |image|)), PartsFrom(channel, image, 0));
    AnnounceStarts(r, step, channel, timestampUs, image);
    StepKeepsSound(r, step);
    if rest != [] { LastIsOwn(rest, channel); }
    if image != [] { PartsComplete(Next(r, step), rest, channel, timestampUs, image, 0); }
  }

  /** The data of part messages, joined. */
  function Joined(parts: seq<seq<Byte>>): seq<Byte>
    requires forall part :: part in parts ==> |part| >= ARTWORK_PREFIX_SIZE
  {
    if parts == [] then [] else parts[0][ARTWORK_PREFIX_SIZE..] + Joined(parts[1..])
  }

  /** Parts are parts of the channel, none without data, and together they are the image. */
  lemma {:induction false} PartsAreImage(channel: Channel, image: seq<Byte>, offset: nat)
    requires offset <= |image|
    ensures var parts := PartsFrom(channel, image, offset);
      && (forall part :: part in parts ==> IsPart(channel, part) && |part| > ARTWORK_PREFIX_SIZE)
      && Joined(parts) == image[offset..]
    decreases |image| - offset
  {
    if offset < |image| {
      var end := Min(offset + ARTWORK_MAX_PART_DATA_SIZE, |image|);
      PartsAreImage(channel, image, end);
      assert PartsFrom(channel, image, offset)[1..] == PartsFrom(channel, image, end);
      assert image[offset..] == image[offset..end] + image[end..];
    }
  }

  /** Messages received one after the other, `due` when they come. */
  function Messages(payloads: seq<seq<Byte>>, due: bool): seq<Step> {
    if payloads == [] then [] else [Message(payloads[0], due)] + Messages(payloads[1..], due)
  }

  lemma {:induction false} MessagesRun(r: Receiver, payloads: seq<seq<Byte>>, channel: Channel, due: bool)
    requires Sound(r) && forall p :: p in payloads ==> p != [] && p[0] == ARTWORK_CHANNEL_0 + channel
    ensures CanRun(r, Messages(payloads, due)) && Undisturbed(r, Messages(payloads, due), channel)
    ensures OwnOf(Messages(payloads, due), channel) == payloads
    ensures |Messages(payloads, due)| == |payloads|
    ensures forall step :: step in Messages(payloads, due) ==> Own(step, channel) && step.due == due
    decreases |payloads|
  {
    if payloads != [] {
      var steps := Messages(payloads, due);
      assert payloads[0] in payloads && forall p :: p in payloads[1..] ==> p in payloads;
      assert steps[0] == Message(payloads[0], due) && steps[1..] == Messages(payloads[1..], due);
      StepKeepsSound(r, steps[0]);
      MessagesRun(Next(r, steps[0]), payloads[1..], channel, due);
      assert payloads == [payloads[0]] + payloads[1..];
    }
  }

  /** In particular what the sending side packs arrives when nothing comes in between. */
  lemma PackedArrives(r: Receiver, channel: Channel, timestampUs: Timestamp, image: seq<Byte>, due: bool)
    requires Sound(r) && !r.closing && r.active && r.available && r.inFlight == None && |image| < 0x1_0000_0000
    ensures
      var announce := PackAnnounce(Announce(channel, timestampUs, |image|));
      var steps := Messages([announce] + PartsFrom(channel, image, 0), due);
      CanRun(r, steps) && Arrived(After(r, steps), channel, timestampUs, image, due)
  {
    var announce := PackAnnounce(Announce(channel, timestampUs, |image|));
    var payloads := [announce] + PartsFrom(channel, image, 0);
    PartsAreImage(channel, image, 0);
    AnnounceLayout(Announce(channel, timestampUs, |image|));
    assert announce[0] == announce[..2][0];
    MessagesRun(r, payloads, channel, due);
    ImageArrives(r, Messages(payloads, due), channel, timestampUs, image);
  }

  // ---------------------------------------------------------------- transfers through outages

  /** Steps as for an image that arrives, but availability may come and go. */
  predicate Orderly(r: Receiver, steps: seq<Step>, channel: Channel)
    requires Sound(r) && CanRun(r, steps)
    decreases |steps|
  {
    steps == [] ||
    ((Own(steps[0], channel) || Harmless(r, steps[0], channel) || steps[0].Available?) &&
     (StepKeepsSound(r, steps[0]); Orderly(Next(r, steps[0]), steps[1..], channel)))
  }

  /** The transfer of an image on the channel is at `offset`, whether or not its image is still to be shown. */
  predicate Transferring(r: Receiver, channel: Channel, timestampUs: Timestamp, image: seq<Byte>, offset: nat) {
    && !r.closing && r.active && r.inFlight == Some(channel) && channel in r.pending
    && offset < |image| < 0x1_0000_0000
    && var p := r.pending[channel];
       && p.received == offset && p.totalSize == |image| && p.timestampUs == timestampUs && !p.timed
       && (!p.discarded ==> p.data == image[..offset])
  }

  /** No transfer is in flight, and if the channel's image waits for its time it is all there. */
  predicate Transferred(r: Receiver, channel: Channel, timestampUs: Timestamp, image: seq<Byte>) {
    && !r.closing && r.inFlight == None
    && |image| < 0x1_0000_0000
    && (channel in r.pending ==> r.pending[channel] == Pending(timestampUs, |image|, image, |image|, false, true))
  }

  lemma PartTransfers(r: Receiver, channel: Channel, timestampUs: Timestamp, image: seq<Byte>, offset: nat, due: bool)
    requires Sound(r) && Transferring(r, channel, timestampUs, image, offset)
    ensures var end := Min(offset + ARTWORK_MAX_PART_DATA_SIZE, |image|);
      var part := [ARTWORK_CHANNEL_0 + channel, 0] + image[offset..end];
      && IsArtwork(part)
      && (if end < |image| then Transferring(Handled(r, part, due), channel, timestampUs, image, end)
          else Transferred(Handled(r, part, due), channel, timestampUs, image))
  {
    var end := Min(offset + ARTWORK_MAX_PART_DATA_SIZE, |image|);
    PartShape(channel, image[offset..end]);
    assert image[..offset] + image[offset..end] == image[..end];
    if end == |image| { assert image[..end] == image; }
  }

  lemma HarmlessKeepsTransferring(
    r: Receiver, step: Step, channel: Channel, timestampUs: Timestamp, image: seq<Byte>, offset: nat)
    requires Sound(r) && Enabled(r, step) && Transferring(r, channel, timestampUs, image, offset)
    requires (Harmless(r, step, channel) || step.Available?) && !Own(step, channel)
    ensures Transferring(Next(r, step), channel, timestampUs, image, offset)
  {
  }

  lemma {:induction false} PartsTransfer(
    r: Receiver, steps: seq<Step>, channel: Channel, timestampUs: Timestamp, image: seq<Byte>, offset: nat)
    requires Sound(r) && Transferring(r, channel, timestampUs, image, offset)
    requires CanRun(r, steps) && Orderly(r, steps, channel)
    requires steps != [] && Own(steps[|steps| - 1], channel)
    requires OwnOf(steps, channel) == PartsFrom(channel, image, offset)
    ensures Transferred(After(r, steps), channel, timestampUs, image)
    decreases |steps|
  {
    var step, rest := steps[0], steps[1..];
    StepKeepsSound(r, step);
    if !Own(step, channel) {
      HarmlessKeepsTransferring(r, step, channel, timestampUs, image, offset);
      ConcatEmpty(OwnOf(rest, channel));
      PartsTransfer(Next(r, step), rest, channel, timestampUs, image, offset);
    } else {
      var end := Min(offset + ARTWORK_MAX_PART_DATA_SIZE, |image|);
      var part := [ARTWORK_CHANNEL_0 + channel, 0] + image[offset..end];
      OwnFirst(steps, channel, part, PartsFrom(channel, image, end));
      PartTransfers(r, channel, timestampUs, image, offset, step.due);
      if end < |image| {
        assert rest != [];
        PartsTransfer(Next(r, step), rest, channel, timestampUs, image, end);
      } else if rest != [] {
        LastIsOwn(rest, channel);
        assert false;
      }
    }
  }

  lemma AnnounceTransfers(r: Receiver, step: Step, channel: Channel, timestampUs: Timestamp, image: seq<Byte>)
    requires Sound(r) && !r.closing && r.active && r.inFlight == None && |image| < 0x1_0000_0000
    requires step.Message? && step.payload == PackAnnounce(Announce(channel, timestampUs, |image|))
    ensures IsArtwork(step.payload)
    ensures if image == [] then Arrived(Next(r, step), channel, timestampUs, image, step.due)
      else Transferring(Next(r, step), channel, timestampUs, image, 0)
  {
    var a := Announce(channel, timestampUs, |image|);
    AnnounceRoundTrip(a);
    assert Next(r, step) == Begin(r, a, step.due);
    assert image[..0] == [];
  }

  /**
   A transfer always ends, and never closes the connection, whatever outages come and go during it: the
   next one may begin. An empty image takes effect even during one.
   */
  lemma TransferEnds(r: Receiver, steps: seq<Step>, channel: Channel, timestampUs: Timestamp, image: seq<Byte>)
    requires Sound(r) && !r.closing && r.active && r.inFlight == None && |image| < 0x1_0000_0000
    requires CanRun(r, steps) && Orderly(r, steps, channel)
    requires steps != [] && Own(steps[0], channel) && Own(steps[|steps| - 1], channel)
    requires OwnOf(steps, channel)
      == [PackAnnounce(Announce(channel, timestampUs, |image|))] + PartsFrom(channel, image, 0)
    ensures Transferred(After(r, steps), channel, timestampUs, image)
    ensures image == [] ==> Arrived(After(r, steps), channel, timestampUs, image, steps[0].due)
  {
    var step, rest := steps[0], steps[1..];
    OwnFirst(steps, channel, PackAnnounce(Announce(channel, timestampUs, |image|)), PartsFrom(channel, image, 0));
    AnnounceTransfers(r, step, channel, timestampUs, image);
    StepKeepsSound(r, step);
    if rest != [] { LastIsOwn(rest, channel); }
    if image != [] { PartsTransfer(Next(r, step), rest, channel, timestampUs, image, 0); }
  }

  /** The last report of the run, or the one before it. */
  function Reported(available: bool, steps: seq<Step>): bool
    decreases |steps|
  {
    if steps == [] then available
    else Reported(if steps[0].Available? then steps[0].value else available, steps[1..])
  }

  lemma {:induction false} AvailabilityFollows(r: Receiver, steps: seq<Step>)
    requires Sound(r) && CanRun(r, steps)
    ensures After(r, steps).available == Reported(r.available, steps)
    decreases |steps|
  {
    if steps != [] {
      StepKeepsSound(r, steps[0]);
      AvailabilityFollows(Next(r, steps[0]), steps[1..]);
    }
  }

  // ---------------------------------------------------------------- what closes the connection, and a stream's end

  /** A message out of place, whatever its channel's stream. */
  predicate OutOfPlace(r: Receiver, payload: seq<Byte>)
    requires IsArtwork(payload) && Sound(r)
  {
    var channel := payload[0] - ARTWORK_CHANNEL_0;
    || (UnpackAnnounce(payload).Some? && r.inFlight.Some?)
    || (IsPart(channel, payload)
        && (r.inFlight != Some(channel)
            || r.pending[channel].received + |payload| - ARTWORK_PREFIX_SIZE > r.pending[channel].totalSize))
  }

  /**
   The connection closes exactly on a malformed message, stream or no stream, and within a stream on an
   announce during a transfer, a part of no transfer, and a part past the announced size.
   */
  lemma ClosesIff(r: Receiver, step: Step)
    requires Sound(r) && Enabled(r, step)
    ensures Next(r, step).closing <==>
      || r.closing
      || (step.Message? && (Malformed(step.payload) || (r.active && OutOfPlace(r, step.payload))))
  {
    match step
    case Message(payload, due) =>
      if !Malformed(payload) && r.active && AnnounceBit(payload[1]) { AnnounceShape(payload); }
    case _ =>
  }

  lemma {:induction false} ClearsAre(shown: set<Channel>, n: nat)
    requires n <= 4
    ensures var told := Clears(shown, n);
      && (forall notice :: notice in told <==> notice.channel in shown && notice.channel < n && notice.image == [])
      && (forall i, j :: 0 <= i < j < |told| ==> told[i].channel < told[j].channel)
  {
    if n > 0 {
      ClearsAre(shown, n - 1);
      var before, told := Clears(shown, n - 1), Clears(shown, n);
      assert n - 1 in shown ==> told == before + [Shown(n - 1, [])];
    }
  }

  /** When a stream ends the listeners are told, once each and in order, that every shown channel is clear. */
  lemma EndClears(r: Receiver)
    ensures r.notices <= Ended(r).notices && Ended(r).shown == {} && Ended(r).pending == map[]
    ensures var told := Ended(r).notices[|r.notices|..];
      && (forall notice :: notice in told <==> notice.channel in r.shown && notice.image == [])
      && (forall i, j :: 0 <= i < j < |told| ==> told[i].channel < told[j].channel)
  {
    ClearsAre(r.shown, 4);
    assert Ended(r).notices[|r.notices|..] == Clears(r.shown, 4);
  }

  predicate NoStream(r: Receiver) { !r.active && r.pending == map[] && r.inFlight == None && r.shown == {} }

  /** A stream's end leaves nothing, and over every run that starts no stream the listeners are told nothing more. */
  lemma {:induction false} QuietBetweenStreams(r: Receiver, steps: seq<Step>)
    requires Sound(r) && CanRun(r, steps)
    requires forall i :: 0 <= i < |steps| ==> !steps[i].StreamStart?
    ensures NoStream(Ended(r))
    ensures NoStream(r) ==> NoStream(After(r, steps)) && After(r, steps).notices == r.notices
    decreases |steps|
  {
    if steps != [] {
      StepKeepsSound(r, steps[0]);
      QuietBetweenStreams(Next(r, steps[0]), steps[1..]);
    }
  }

  // ---------------------------------------------------------------- images dropped while unavailable

  /** Whatever the channel has pending will not be shown: it is discarded, or longer than announced. */
  predicate Doomed(r: Receiver, channel: Channel) {
    channel in r.pending ==>
      var p := r.pending[channel];
      !p.timed && (p.discarded || p.received > p.totalSize)
  }

  /** The step starts a new transfer on the channel. */
  predicate Announces(r: Receiver, step: Step, channel: Channel) {
    && Own(step, channel) && IsArtwork(step.payload) && !Malformed(step.payload)
    && AnnounceBit(step.payload[1]) && r.active && r.inFlight == None
  }

  predicate NeverAnnounced(r: Receiver, steps: seq<Step>, channel: Channel)
    requires Sound(r) && CanRun(r, steps)
    decreases |steps|
  {
    steps == [] ||
    (!Announces(r, steps[0], channel) &&
     (StepKeepsSound(r, steps[0]); NeverAnnounced(Next(r, steps[0]), steps[1..], channel)))
  }

  /** Since `before`, the listeners were at most told that the channel is clear. */
  predicate OnlyCleared(before: seq<Shown>, after: seq<Shown>, channel: Channel) {
    && before <= after
    && forall i :: |before| <= i < |after| && after[i].channel == channel ==> after[i].image == []
  }

  lemma ClearsAreEmpty(shown: set<Channel>, n: nat)
    requires n <= 4
    ensures forall notice :: notice in Clears(shown, n) ==> notice.image == []
  {
    if n > 0 { ClearsAreEmpty(shown, n - 1); }
  }

  /** An image is doomed by the first byte announced or received while the client is unavailable. */
  predicate Dooms(r: Receiver, step: Step, channel: Channel) {
    && Own(step, channel) && IsArtwork(step.payload) && !Malformed(step.payload)
    && r.active && !r.available && !CancelBit(step.payload[1])
    && if AnnounceBit(step.payload[1])
       then r.inFlight == None && UnpackAnnounce(step.payload).Some? && UnpackAnnounce(step.payload).value.totalSize > 0
       else r.inFlight == Some(channel)
  }

  lemma DoomsNow(r: Receiver, step: Step, channel: Channel)
    requires Sound(r) && Dooms(r, step, channel)
    ensures Doomed(Next(r, step), channel) && Next(r, step).notices == r.notices
  {
  }

  lemma SettleKeepsDoomed(r: Receiver, other: Channel, due: bool, channel: Channel)
    requires other in r.pending && Doomed(r, channel)
    ensures Doomed(Settle(r, other, due), channel)
    ensures OnlyCleared(r.notices, Settle(r, other, due).notices, channel)
  {
  }

  lemma BeginKeepsDoomed(r: Receiver, a: Announce, due: bool, channel: Channel)
    requires Doomed(r, channel) && (r.inFlight == None ==> a.channel != channel)
    ensures Doomed(Begin(r, a, due), channel)
    ensures OnlyCleared(r.notices, Begin(r, a, due).notices, channel)
  {
    if r.inFlight == None {
      var p := Pending(a.timestampUs, a.totalSize, [], 0, a.totalSize > 0 && !r.available, false);
      var d := Discard(r, a.channel);
      SettleKeepsDoomed(d.(pending := d.pending[a.channel := p], inFlight := Some(a.channel)), a.channel, due, channel);
    }
  }

  lemma ContinueKeepsDoomed(r: Receiver, other: Channel, data: seq<Byte>, due: bool, channel: Channel)
    requires Doomed(r, channel) && (r.inFlight == Some(other) ==> other in r.pending)
    ensures Doomed(Continue(r, other, data, due), channel)
    ensures OnlyCleared(r.notices, Continue(r, other, data, due).notices, channel)
  {
    if r.inFlight == Some(other) {
      var p := r.pending[other];
      if p.received + |data| <= p.totalSize {
        SettleKeepsDoomed(r.(pending := r.pending[other := Grown(p, data, r.available)]), other, due, channel);
      }
    }
  }

  lemma ConfiguredKeepsDoomed(r: Receiver, config: seq<Config>, channel: Channel)
    requires Doomed(r, channel)
    ensures Doomed(Configured(r, config), channel) && Configured(r, config).notices == r.notices
  {
  }

  lemma EndedKeepsDoomed(r: Receiver, channel: Channel)
    ensures Doomed(Ended(r), channel) && OnlyCleared(r.notices, Ended(r).notices, channel)
  {
    ClearsAreEmpty(r.shown, 4);
  }

  lemma MessageKeepsDoomed(r: Receiver, payload: seq<Byte>, due: bool, channel: Channel)
    requires Sound(r) && IsArtwork(payload) && Doomed(r, channel) && !Announces(r, Message(payload, due), channel)
    ensures Doomed(Handled(r, payload, due), channel)
    ensures OnlyCleared(r.notices, Handled(r, payload, due).notices, channel)
  {
    if !Malformed(payload) && r.active && !CancelBit(payload[1]) {
      if AnnounceBit(payload[1]) {
        AnnounceShape(payload);
        BeginKeepsDoomed(r, UnpackAnnounce(payload).value, due, channel);
      } else {
        ContinueKeepsDoomed(r, payload[0] - ARTWORK_CHANNEL_0, payload[ARTWORK_PREFIX_SIZE..], due, channel);
      }
    }
  }

  lemma StepKeepsDoomed(r: Receiver, step: Step, channel: Channel)
    requires Sound(r) && Enabled(r, step) && Doomed(r, channel) && !Announces(r, step, channel)
    ensures Doomed(Next(r, step), channel)
    ensures OnlyCleared(r.notices, Next(r, step).notices, channel)
  {
    match step
    case Message(payload, due) => MessageKeepsDoomed(r, payload, due, channel);
    case StreamStart(config) => ConfiguredKeepsDoomed(r, config, channel);
    case StreamEnd => EndedKeepsDoomed(r, channel);
    case _ =>
  }

  /**
   A single byte announced or received during an outage dooms the whole image: over every later run,
   whatever messages, timers, availability changes, stream starts and ends it holds, the channel shows
   no image before it is announced another.
   */
  lemma UnavailableNeverShown(r: Receiver, step: Step, steps: seq<Step>, channel: Channel)
    requires Sound(r) && Dooms(r, step, channel)
    requires Sound(Next(r, step)) && CanRun(Next(r, step), steps)
    requires NeverAnnounced(Next(r, step), steps, channel)
    ensures OnlyCleared(r.notices, After(Next(r, step), steps).notices, channel)
  {
    DoomsNow(r, step, channel);
    DoomedNeverShown(Next(r, step), steps, channel);
  }

  /** The step drops whatever the channel has pending: a cancel, the stream's end, or a changed configuration. */
  predicate Drops(r: Receiver, step: Step, channel: Channel) {
    match step
    case Message(payload, _) => r.active && payload == PackCancel(channel)
    case StreamStart(config) => ConfigOf(Some(config), channel) != ConfigOf(r.config, channel)
    case StreamEnd => true
    case _ => false
  }

  lemma DropsNow(r: Receiver, step: Step, channel: Channel)
    requires Sound(r) && Enabled(r, step) && Drops(r, step, channel)
    ensures channel !in Next(r, step).pending && Next(r, step).inFlight != Some(channel)
    ensures OnlyCleared(r.notices, Next(r, step).notices, channel)
  {
    if step.StreamEnd? { EndedKeepsDoomed(r, channel); }
  }

  /**
   A dropped image is never shown: over every run after a cancel of the channel, the end of the stream or
   a stream with another configuration for it, the channel shows no image before it is announced another.
   */
  lemma DroppedNeverShown(r: Receiver, step: Step, steps: seq<Step>, channel: Channel)
    requires Sound(r) && Enabled(r, step) && Drops(r, step, channel)
    requires Sound(Next(r, step)) && CanRun(Next(r, step), steps)
    requires NeverAnnounced(Next(r, step), steps, channel)
    ensures OnlyCleared(r.notices, After(Next(r, step), steps).notices, channel)
  {
    DropsNow(r, step, channel);
    DoomedNeverShown(Next(r, step), steps, channel);
  }

  lemma {:induction false} DoomedNeverShown(r: Receiver, steps: seq<Step>, channel: Channel)
    requires Sound(r) && CanRun(r, steps) && Doomed(r, channel) && NeverAnnounced(r, steps, channel)
    ensures OnlyCleared(r.notices, After(r, steps).notices, channel)
    decreases |steps|
  {
    if steps != [] {
      StepKeepsSound(r, steps[0]);
      StepKeepsDoomed(r, steps[0], channel);
      DoomedNeverShown(Next(r, steps[0]), steps[1..], channel);
    }
  }

  class ArtworkReceiver {
    var active: bool
    var available: bool
    var pending: map<Channel, Pending>
    var inFlight: Option<Channel>
    var config: Option<seq<Config>>
    var shown: set<Channel>
    var closing: bool
    ghost var notices: seq<Shown>

    ghost function AsReceiver(): Receiver reads this {
      Receiver(active, available, pending, inFlight, config, shown, notices, closing)
    }

    ghost predicate Valid() reads this { Sound(AsReceiver()) }

    method HandleBinary(payload: seq<Byte>, due: bool)
      requires Valid() && IsArtwork(payload)
      modifies this
      ensures Valid() && AsReceiver() == Handled(old(AsReceiver()), payload, due)
    {
      StepKeepsSound(AsReceiver(), Message(payload, due));
      if Malformed(payload) {
        closing := true;
        return;
      }
      if !active { return; }
      var channel: Channel := payload[0] - ARTWORK_CHANNEL_0;
      if CancelBit(payload[1]) {
        DiscardPending(channel);
        return;
      }
      if AnnounceBit(payload[1]) {
        AnnounceShape(payload);
        HandleAnnounce(UnpackAnnounce(payload).value, due);
      } else {
        HandlePart(channel, payload[ARTWORK_PREFIX_SIZE..], due);
      }
    }

    method HandleAnnounce(a: Announce, due: bool)
      modifies this
      ensures AsReceiver() == Begin(old(AsReceiver()), a, due)
    {
      if inFlight.Some? {
        closing := true;
        return;
      }
      DiscardPending(a.channel);
      pending := pending[a.channel := Pending(a.timestampUs, a.totalSize, [], 0, a.totalSize > 0 && !available, false)];
      inFlight := Some(a.channel);
      SettleTransfer(a.channel, due);
    }

    method HandlePart(channel: Channel, data: seq<Byte>, due: bool)
      requires inFlight == Some(channel) ==> channel in pending
      modifies this
      ensures AsReceiver() == Continue(old(AsReceiver()), channel, data, due)
    {
      if inFlight != Some(channel) {
        closing := true;
        return;
      }
      var p := pending[channel];
      if p.received + |data| > p.totalSize {
        pending := pending[channel := p.(received := p.received + |data|)];
        closing := true;
        return;
      }
      if p.discarded || !available {
        p := p.(received := p.received + |data|, discarded := true, data := []);
      } else {
        p := p.(received := p.received + |data|, data := p.data + data);
      }
      pending := pending[channel := p];
      SettleTransfer(channel, due);
    }

    method SettleTransfer(channel: Channel, due: bool)
      requires channel in pending
      modifies this
      ensures AsReceiver() == Settle(old(AsReceiver()), channel, due)
    {
      if pending[channel].received == pending[channel].totalSize {
        inFlight := None;
        if pending[channel].discarded {
          pending := pending - {channel};
        } else if due {
          ShowArtwork(channel);
        } else {
          pending := pending[channel := pending[channel].(timed := true)];
        }
      }
    }

    method ShowArtwork(channel: Channel)
      requires channel in pending
      modifies this
      ensures AsReceiver() == Show(old(AsReceiver()), channel)
    {
      var image := pending[channel].data;
      pending := pending - {channel};
      if image != [] { shown := shown + {channel}; } else { shown := shown - {channel}; }
      notices := notices + [Shown(channel, image)];
    }

    method StartStream(newConfig: seq<Config>)
      requires Valid()
      modifies this
      ensures Valid() && AsReceiver() == Configured(old(AsReceiver()), newConfig)
    {
      ghost var r := AsReceiver();
      StepKeepsSound(r, StreamStart(newConfig));
      CompareNone(r, newConfig);
      active := true;
      for c: int := 0 to 4
        invariant AsReceiver() == Compared(r, newConfig, c)
      {
        CompareOne(r, newConfig, c);
        DiscardIfChanged(c, newConfig);
      }
      config := Some(newConfig);
    }

    method DiscardIfChanged(channel: Channel, newConfig: seq<Config>)
      modifies this`pending, this`inFlight
      ensures AsReceiver() == CompareChannel(old(AsReceiver()), newConfig, channel)
    {
      if channel in pending && ConfigOf(Some(newConfig), channel) != ConfigOf(config, channel) {
        DiscardPending(channel);
      }
    }

    method EndStream()
      requires Valid()
      modifies this
      ensures Valid() && AsReceiver() == Ended(old(AsReceiver()))
    {
      active := false;
      pending, inFlight, config := map[], None, None;
      ConcatEmpty(notices);
      for c: int := 0 to 4
        invariant AsReceiver() ==
          Ended(old(AsReceiver())).(shown := old(shown), notices := old(notices) + Clears(shown, c))
      {
        if c in shown {
          ConcatAssociates(old(notices), Clears(shown, c), [Shown(c, [])]);
          notices := notices + [Shown(c, [])];
        } else {
          ConcatEmpty(Clears(shown, c));
        }
      }
      shown := {};
    }

    method DiscardPending(channel: Channel)
      modifies this`pending, this`inFlight
      ensures AsReceiver() == Discard(old(AsReceiver()), channel)
    {
      pending := pending - {channel};
      if inFlight == Some(channel) { inFlight := None; }
    }
  }
}
