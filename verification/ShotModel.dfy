/** The recorder's per-shot state and its verdict on a shot, as values. */
module ShotModel {
  import opened Crc32
  import opened Protocol
  import opened Ordering
  import opened Gaps
  import opened RunFormat

  datatype Info = NoInfo | Info(header: Header, info: StreamInfo)
  datatype End = NoEnd | End(header: Header, end: ShotEnd)

  datatype Shot = Shot(
    shotId: U64, packets: seq<Datagram>, firstReceiveNs: nat, lastReceiveNs: nat,
    highestArrival: Option<U64>, info: Info, end: End, issues: Issues,
    datagrams: nat, duplicatePackets: nat, reorderedPackets: nat, conflictingPackets: nat)

  function NewShot(shotId: U64): Shot {
    Shot(shotId, [], 0, 0, None, NoInfo, NoEnd, NO_ISSUES, 0, 0, 0, 0)
  }

  predicate Holds(packets: seq<Datagram>, sequence: U64) {
    exists p | p in packets :: p.Sequence() == sequence
  }

  /** `add_packet`: a sequence already held is a duplicate or a conflict and changes no packet. */
  function AddPacket(s: Shot, ns: nat, d: Datagram): Shot {
    var t := s.(datagrams := s.datagrams + 1, lastReceiveNs := ns,
                firstReceiveNs := if s.firstReceiveNs == 0 then ns else s.firstReceiveNs);
    if Holds(s.packets, d.Sequence()) then
      if d in s.packets then t.(duplicatePackets := s.duplicatePackets + 1)
      else t.(conflictingPackets := s.conflictingPackets + 1, issues := s.issues.(conflict := true))
    else
      var late := s.highestArrival.Some? && d.Sequence() < s.highestArrival.value;
      t.(packets := s.packets + [d],
         reorderedPackets := s.reorderedPackets + if late then 1 else 0,
         highestArrival := if late then s.highestArrival else Some(d.Sequence()))
  }

  /** The rest of `validate_and_ingest` on a packet just added. */
  function NoteObject(s: Shot, d: Datagram): Shot {
    match d.payload
    case InfoObject(info) =>
      if s.info.NoInfo? then s.(info := Info(d.header, info)) else s.(issues := s.issues.(conflict := true))
    case EndObject(end) =>
      if s.end.NoEnd? then s.(end := End(d.header, end))
      else s.(issues := s.issues.(conflict := true, protocol := s.issues.protocol || end != s.end.end))
    case Raw(kind, _) =>
      if kind == DataPacket then s else s.(issues := s.issues.(protocol := true))
  }

  // ----- gaps -----

  function Sequences(packets: seq<Datagram>): seq<U64> {
    seq(|packets|, i requires 0 <= i < |packets| => packets[i].Sequence())
  }

  predicate Bounded(s: Shot) {
    s.info.Info? && s.end.End? && s.info.header.packetSequence <= s.end.header.packetSequence
  }

  /** The sequences from STREAM_INFO to SHOT_END that did not arrive. */
  function AbsentOf(s: Shot): set<nat>
    requires Bounded(s)
  {
    Absent(s.info.header.packetSequence, s.end.header.packetSequence, Values(Sequences(s.packets)))
  }

  function Missing(s: Shot): U32 {
    if Bounded(s) then Saturated(|AbsentOf(s)|) else 1
  }

  predicate SequenceIsComplete(s: Shot) {
    Bounded(s) && AbsentOf(s) == {}
  }

  // ----- the packets of a shot -----

  function Format(s: Shot): U16 { if s.info.Info? then s.info.header.payloadFormat else 0 }

  function FrameSamples(s: Shot): U32 { if s.info.Info? then s.info.info.frameSamples else 0 }

  /** A DATA packet whose own fields agree. */
  predicate Admissible(format: U16, d: Datagram) {
    var h := d.header;
    && d.Type() == DataPacket
    && h.sampleCount > 0 && h.sampleBytes == 4 && h.payloadFormat == format
    && !h.flags.payloadCrcValid && !h.flags.endOfStream && h.flags.others == 0
    && d.payload.Length() == h.sampleCount * h.sampleBytes
  }

  /** A packet whose own fields break the protocol. */
  predicate Malformed(format: U16, d: Datagram) {
    var h := d.header;
    match d.Type()
    case DataPacket => !Admissible(format, d)
    case StreamInfoPacket =>
      d.payload.Length() != OBJECT_BYTES || h.flags != NO_FLAGS || h.frameId != 0 || h.sampleOffset != 0
      || h.sampleCount != 0 || h.timestampTicks != 0
    case ShotEndPacket =>
      d.payload.Length() != OBJECT_BYTES || h.payloadFormat != FORMAT_NONE || h.flags != NO_FLAGS || h.frameId != 0
      || h.sampleOffset != 0 || h.sampleCount != 0 || h.sampleBytes != 0 || h.timestampTicks != 0
    case HeartbeatPacket => true
  }

  predicate AnyMalformed(format: U16, packets: seq<Datagram>) {
    exists d | d in packets :: Malformed(format, d)
  }

  /** The admissible DATA packets, in order. */
  function Data(format: U16, packets: seq<Datagram>): (r: seq<Datagram>)
    ensures |r| <= |packets|
  {
    if packets == [] then []
    else
      var d := packets[|packets| - 1];
      Data(format, packets[..|packets| - 1]) + if Admissible(format, d) then [d] else []
  }

  // ----- frames -----

  function EndOffset(d: Datagram): U32 {
    Wrap32(d.header.sampleOffset + d.header.sampleCount)
  }

  /** Packet `i` continues the frame before it, or starts the next frame once that is full. */
  predicate Fits(ps: seq<Datagram>, i: nat, frameSamples: U32)
    requires i < |ps|
  {
    var h := ps[i].header;
    && (if i == 0 || h.frameId != ps[i - 1].header.frameId then
          && h.flags.frameStart && h.sampleOffset == 0
          && (i > 0 ==> h.frameId == ps[i - 1].header.frameId + 1 && EndOffset(ps[i - 1]) == frameSamples)
        else h.sampleOffset == EndOffset(ps[i - 1]))
    && (h.flags.frameEnd <==> EndOffset(ps[i]) == frameSamples)
  }

  /** The packets tile frames 0, 1, 2, ... of `frameSamples` samples each. */
  predicate Tiles(ps: seq<Datagram>, frameSamples: U32) {
    ps != [] ==>
      && ps[0].header.frameId == 0
      && (forall i | 0 <= i < |ps| :: Fits(ps, i, frameSamples))
      && EndOffset(ps[|ps| - 1]) == frameSamples
  }

  predicate StartsFrame(ps: seq<Datagram>, i: nat)
    requires i < |ps|
  {
    ps[i].header.frameId != if i == 0 then U32_MAX else ps[i - 1].header.frameId
  }

  /** How many frames the first `n` packets start. */
  function FrameCount(ps: seq<Datagram>, n: nat): nat
    requires n <= |ps|
  {
    if n == 0 then 0 else FrameCount(ps, n - 1) + if StartsFrame(ps, n - 1) then 1 else 0
  }

  // ----- the verdict -----

  datatype LastShot = LastShot(shotId: U64, timestamp: U64)

  /** What `finalize_shot` reads of the run. */
  datatype Context = Context(maxShotBytes: nat, profile: Info, expected: Option<U64>, last: Option<LastShot>)

  predicate BadProfile(s: Shot) {
    s.info.Info? && (
      || s.info.info.frameSamples == 0 || s.info.info.sampleRateDenominator == 0
      || s.info.info.timestampRateDenominator == 0
      || (s.info.header.payloadFormat != FORMAT_COUNTER_U32_LE && s.info.header.payloadFormat != FORMAT_IQ_S16_LE)
      || s.info.header.sampleBytes != 4)
  }

  predicate OtherProfile(c: Context, s: Shot) {
    c.profile.Info? && s.info.Info? && (
      || c.profile.info != s.info.info
      || c.profile.header.payloadFormat != s.info.header.payloadFormat
      || c.profile.header.sampleBytes != s.info.header.sampleBytes)
  }

  predicate Timed(d: Datagram) {
    d.header.flags.timestampValid || d.header.timestampTicks != 0
  }

  /** Exactly the first DATA packet of a shot carries a timestamp, and it is not zero. */
  predicate TimestampsOk(data: seq<Datagram>) {
    && (data != [] ==> data[0].header.flags.timestampValid && data[0].header.timestampTicks != 0)
    && (forall i | 0 < i < |data| :: !Timed(data[i]))
  }

  function FirstTimestamp(data: seq<Datagram>): U64 {
    if data == [] then 0 else data[0].header.timestampTicks
  }

  function SourceFlagsOf(data: seq<Datagram>): SourceFlags {
    SourceFlags(exists d | d in data :: d.header.flags.discontinuityBefore,
                exists d | d in data :: d.header.flags.sourceOverflow,
                exists d | d in data :: d.header.flags.senderDrop)
  }

  predicate TotalsOk(e: ShotEnd, data: seq<Datagram>, frames: U32) {
    && e.totalFrames == frames
    && e.totalSamples == SampleTotal(data)
    && e.totalDataPackets == |data|
    && e.payloadBytes == |Payloads(data)|
    && (data != [] ==> e.firstPacketSequence == data[0].Sequence()
                       && e.lastPacketSequence == data[|data| - 1].Sequence())
  }

  predicate EndFlagsOk(f: Flags) {
    f == NO_FLAGS.(payloadCrcValid := f.payloadCrcValid, endOfStream := f.endOfStream)
  }

  /** The shot does not follow the one before it in sequence, or in shot id and timestamp. */
  predicate BreaksContinuity(c: Context, s: Shot, firstTimestamp: U64) {
    || (c.expected.Some? && s.info.Info? && s.info.header.packetSequence != c.expected.value)
    || (c.last.Some? && (s.shotId <= c.last.value.shotId || firstTimestamp == 0
                         || firstTimestamp <= c.last.value.timestamp))
  }

  /** What `finalize_shot` finds out about a shot: `data` by sequence, `placed` by frame and offset. */
  datatype Verdict = Verdict(issues: Issues, missing: U32, data: seq<Datagram>, placed: seq<Datagram>)

  function Frames(v: Verdict): nat { FrameCount(v.placed, |v.placed|) }

  function Judge(c: Context, s: Shot): Verdict {
    var packets := Sort(BySequence, s.packets);
    var missing := Missing(s);
    var data := Data(Format(s), packets);
    var placed := Sort(ByFrame, data);
    var frames := FrameCount(placed, |placed|);
    var flags := SourceFlagsOf(data);
    var issues := Issues(
      protocol := s.issues.protocol || s.info.NoInfo? || s.end.NoEnd? || BadProfile(s)
                  || AnyMalformed(Format(s), packets)
                  || (s.end.End? && !EndFlagsOk(s.end.end.endFlags))
                  || OtherProfile(c, s),
      missing := s.issues.missing || missing > 0,
      conflict := s.issues.conflict,
      frame := s.issues.frame || data == [] || |Payloads(data)| > c.maxShotBytes
               || !Tiles(placed, FrameSamples(s))
               || (s.end.End? && !TotalsOk(s.end.end, data, frames % 0x1_0000_0000)),
      crc := s.issues.crc || (s.end.End? && (!s.end.end.endFlags.payloadCrcValid
                                             || s.end.end.payloadCrc32 != Checksum(Payloads(placed)))),
      sender := s.issues.sender || (s.end.End? && s.end.end.status != SHOT_COMPLETE)
                || flags != SourceFlags(false, false, false),
      timestamp := s.issues.timestamp || !TimestampsOk(data),
      continuity := s.issues.continuity || BreaksContinuity(c, s, FirstTimestamp(data)));
    Verdict(issues, missing, data, placed)
  }

  /** The index record of a judged shot; `offset` is the size of the sample file before it. */
  function RecordOf(s: Shot, v: Verdict, offset: nat): IndexRecord {
    IndexRecord(
      s.shotId, !v.issues.Any(), v.issues,
      if s.info.Info? then s.info.header.packetSequence else 0,
      if s.end.End? then s.end.header.packetSequence else 0,
      FirstTimestamp(v.data), s.firstReceiveNs, s.lastReceiveNs,
      if v.issues.Any() then NoExtent else Extent(offset, |Payloads(v.data)|),
      Frames(v) % 0x1_0000_0000, FrameSamples(s), Saturated(|v.data|), s.datagrams, s.duplicatePackets,
      s.reorderedPackets,
      v.missing, Checksum(Payloads(v.placed)), SourceFlagsOf(v.data), Format(s),
      if s.info.Info? then s.info.header.sampleBytes else 0,
      if s.info.Info? then s.info.info.configId else 0)
  }
}
