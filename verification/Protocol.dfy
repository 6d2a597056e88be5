/** Data Plane v1 datagrams, as their decoded fields. The byte layouts are plain field-by-field
    codecs; equality of decoded datagrams is equality of their bytes. */
module Protocol {
  import opened Crc32

  datatype Option<+T> = None | Some(value: T)

  type U16 = x: nat | x < 0x1_0000
  type U32 = x: nat | x < 0x1_0000_0000
  type U64 = x: nat | x < 0x1_0000_0000_0000_0000

  const U32_MAX: U32 := 0xffff_ffff
  const U64_MAX: U64 := 0xffff_ffff_ffff_ffff

  const HEADER_BYTES := 64
  const OBJECT_BYTES := 64 // STREAM_INFO and SHOT_END payloads
  const MAX_DATAGRAM := 1400
  const MAX_PAYLOAD := 1336

  const FORMAT_NONE: U16 := 0
  const FORMAT_COUNTER_U32_LE: U16 := 1
  const FORMAT_IQ_S16_LE: U16 := 2

  const SHOT_COMPLETE: U32 := 0

  datatype PacketType = StreamInfoPacket | DataPacket | ShotEndPacket | HeartbeatPacket

  /** The 32-bit flag word: its eight named bits and the 24 others as one number. */
  datatype Flags = Flags(
    timestampValid: bool, frameStart: bool, frameEnd: bool, discontinuityBefore: bool,
    payloadCrcValid: bool, sourceOverflow: bool, senderDrop: bool, endOfStream: bool,
    others: nat)

  const NO_FLAGS := Flags(false, false, false, false, false, false, false, false, 0)
  const END_OF_STREAM := NO_FLAGS.(endOfStream := true)

  datatype Header = Header(
    payloadFormat: U16, flags: Flags, streamId: U32, runId: U64, shotId: U64,
    packetSequence: U64, frameId: U32, sampleOffset: U32, sampleCount: U16, sampleBytes: U16,
    timestampTicks: U64)

  datatype StreamInfo = StreamInfo(
    frameSamples: U32, sampleRateNumerator: U64, sampleRateDenominator: U64,
    timestampRateNumerator: U64, timestampRateDenominator: U64, centerFrequencyHz: int,
    channelCount: U16, componentBits: U16, fractionBits: U16, timestampClockId: U16, configId: U64)

  datatype ShotEnd = ShotEnd(
    status: U32, endFlags: Flags, totalFrames: U32, totalSamples: U64, totalDataPackets: U64,
    firstPacketSequence: U64, lastPacketSequence: U64, payloadBytes: U64, payloadCrc32: bv32)

  /** What follows the header. A packet whose object does not decode, like a packet without one,
      keeps its bytes; a DATA packet's bytes are its samples. */
  datatype Payload = InfoObject(info: StreamInfo) | EndObject(end: ShotEnd) | Raw(kind: PacketType, bytes: seq<Byte>) {
    function Length(): nat {
      if Raw? then |bytes| else OBJECT_BYTES
    }
  }

  datatype Datagram = Datagram(header: Header, payload: Payload) {
    function Type(): PacketType {
      match payload
      case InfoObject(_) => StreamInfoPacket
      case EndObject(_) => ShotEndPacket
      case Raw(kind, _) => kind
    }

    function Length(): nat {
      HEADER_BYTES + payload.Length()
    }

    function Sequence(): U64 {
      header.packetSequence
    }
  }

  /** 32-bit wrap-around of a sum of two values. */
  function Wrap32(n: nat): U32
    requires n < 0x2_0000_0000
  {
    if n > U32_MAX then n - U32_MAX - 1 else n
  }

  function SamplesOf(d: Datagram): seq<Byte> {
    if d.payload.Raw? then d.payload.bytes else []
  }

  /** The payload bytes of DATA packets, in order, and how many samples they announce. */
  function Payloads(ds: seq<Datagram>): seq<Byte> {
    if ds == [] then [] else Payloads(ds[..|ds| - 1]) + SamplesOf(ds[|ds| - 1])
  }

  function SampleTotal(ds: seq<Datagram>): nat {
    if ds == [] then 0 else SampleTotal(ds[..|ds| - 1]) + ds[|ds| - 1].header.sampleCount
  }
}
