/** host/data_plane/qcrate_run_format.h: what the recorder appends to the sample and index files. */
module RunFormat {
  import opened Crc32
  import opened Protocol

  datatype Issues = Issues(
    protocol: bool, missing: bool, conflict: bool, frame: bool,
    crc: bool, sender: bool, timestamp: bool, continuity: bool)
  {
    predicate Any() {
      protocol || missing || conflict || frame || crc || sender || timestamp || continuity
    }
  }

  const NO_ISSUES := Issues(false, false, false, false, false, false, false, false)

  /** Where a record's samples lie; an INCOMPLETE record names offset UINT64_MAX and no byte. */
  datatype Extent = NoExtent | Extent(offset: nat, bytes: nat)

  datatype SourceFlags = SourceFlags(discontinuityBefore: bool, sourceOverflow: bool, senderDrop: bool)

  datatype IndexRecord = IndexRecord(
    shotId: U64, complete: bool, issues: Issues, firstPacketSequence: U64, lastPacketSequence: U64,
    firstSampleTimestamp: U64, firstReceiveNs: nat, lastReceiveNs: nat, extent: Extent,
    frameCount: U32, frameSamples: U32, dataPackets: U32, datagrams: nat, duplicatePackets: nat,
    reorderedPackets: nat, missingPackets: U32, payloadCrc32: bv32, sourceFlags: SourceFlags,
    payloadFormat: U16, sampleBytesPerWord: U16, configId: U64)

  /** The two files, as the writes that reached them. Each record is flushed after its samples. */
  datatype Write = AppendSamples(bytes: seq<Byte>) | AppendRecord(record: IndexRecord)

  function SamplesFile(log: seq<Write>): seq<Byte> {
    if log == [] then []
    else SamplesFile(log[..|log| - 1]) + (match log[|log| - 1] case AppendSamples(b) => b case AppendRecord(_) => [])
  }

  function Records(log: seq<Write>): seq<IndexRecord> {
    if log == [] then []
    else Records(log[..|log| - 1]) + (match log[|log| - 1] case AppendSamples(_) => [] case AppendRecord(r) => [r])
  }

  /** The state and extent checks of the analyzer's `ShotRecord.decode`. */
  predicate DecodeAccepts(r: IndexRecord) {
    && (if r.complete then !r.issues.Any() && r.extent.Extent? && r.extent.bytes > 0 else r.extent == NoExtent)
    && r.firstReceiveNs <= r.lastReceiveNs
  }
}
