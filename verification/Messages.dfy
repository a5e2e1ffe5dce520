/** The messages that travel between central, proxy and receivers, as values. */
module Messages {
  import opened Common
  import opened Reports
  import opened Sections

  type Digest = Bytes
  type Payload = Bytes

  /** File content, one payload per block. */
  type Content = seq<Payload>

  /** Every block has the size the geometry gives it. */
  predicate FullSize(c: Content, g: Geometry) {
    |c| == g.totalBlocks && forall b :: 0 <= b < |c| ==> |c[b]| == BlockSizeOf(g, b)
  }

  function Zeros(g: Geometry): (c: Content)
    ensures FullSize(c, g)
  {
    seq(g.totalBlocks, b requires 0 <= b < g.totalBlocks => seq(BlockSizeOf(g, b), _ => 0))
  }

  /** The most blocks one peer repair task may name. */
  const MAX_PEER_BLOCKS := 64

  datatype FileMeta = FileMeta(transferId: uint64, geometry: Geometry, fileName: string, sha256: Digest)

  datatype ReceiverState = Idle | Receiving | Completed

  /** Receiver to proxy. */
  datatype Report =
    | Register(state: ReceiverState, currentId: uint64)
    | Status(status: SectionStatus)
    | ReceiverComplete(completeId: uint64, fileSize: uint64, sha256: Digest)
    | MetaReady(readyId: uint64)
    | ReceiverReady(previousId: uint64)

  /** UDP DATA, and BACKFILL_DATA apart from its section field. */
  datatype DataPacket = DataPacket(
    transferId: uint64, sectionId: uint32, blockId: uint32, offset: uint64, crc: bv32, payload: Payload)

  /** Proxy to receiver. */
  datatype Command =
    | FileMetaFrame(meta: FileMeta)
    | SectionEnd(endId: uint64, endSection: uint32, endRound: uint32, endTotal: uint32)
    | RepairBegin(repairId: uint64, repairSection: uint32, repairRound: uint32)
    | PeerRepairTask(taskTransfer: uint64, taskSection: uint32, taskRound: uint32, taskId: nat,
                     target: nat, blocks: seq<uint32>)
    | BackfillData(packet: DataPacket)
    | BackfillEnd(meta: FileMeta)
    | CompleteAck(ackId: uint64)
    | TransferFailed(failedId: uint64)
}
