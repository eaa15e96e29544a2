/**
 * The capability the manager drives: the CoreBluetooth central manager and
 * peripheral calls it makes, as entries of a command log, and the central
 * manager's power state as reported to the delegate.
 */
module Adapter {
  import opened Wrappers
  import opened Gatt
  import opened ConnectionState

  /** `CBManagerState`. */
  datatype ManagerState = Unknown | Resetting | Unsupported | Unauthorized | PoweredOff | PoweredOn

  /**
   * `FileTransferInfo`: the announcement of an upload (name, extension and
   * size of the file, the result code 99 for "pending", the chunk size and
   * the number of chunks per acknowledgement window).
   */
  datatype FileTransferInfo = FileTransferInfo(fileName: string, fileExtension: string, fileSize: int,
                                               transferResult: int, chunkSize: int, bufferLoopTimes: int)

  /** The JSON requests the manager writes to the command characteristic. */
  datatype Request =
    | StatusRequest(status: bool, crcList: bool)
    | FileCheck(fileName: string, fileExtension: string, crc: int)
    | TransferInfo(info: FileTransferInfo)

  /** One call into the adapter. */
  datatype Command =
    | ScanForPeripherals(services: seq<Uuid>)
    | StopScan
    | Connect(peripheral: Uuid)
    | CancelConnection(peripheral: Uuid)
    | DiscoverServices(peripheral: Uuid, services: seq<Uuid>)
      /** `filter` None is `discoverCharacteristics(nil, for:)`: all characteristics. */
    | DiscoverCharacteristics(peripheral: Uuid, service: Uuid, filter: Option<seq<Uuid>>)
    | SetNotify(peripheral: Uuid, characteristic: Uuid, enabled: bool)
      /** `writeValue(_, for:, type: .withResponse)` of an encoded request. */
    | WriteRequest(peripheral: Uuid, characteristic: Uuid, request: Request)
      /** `writeValue(_, for:, type:)` of raw bytes. */
    | WriteBytes(peripheral: Uuid, characteristic: Uuid, bytes: seq<Byte>, withResponse: bool)

  /** The write-without-response commands that send `chunks` in order. */
  function ChunkWrites(peripheral: Uuid, characteristic: Uuid, chunks: seq<seq<Byte>>): seq<Command>
    decreases |chunks|
  {
    if chunks == [] then []
    else ChunkWrites(peripheral, characteristic, chunks[..|chunks| - 1])
         + [WriteBytes(peripheral, characteristic, chunks[|chunks| - 1], false)]
  }

  lemma ChunkWritesAppend(peripheral: Uuid, characteristic: Uuid, chunks: seq<seq<Byte>>, chunk: seq<Byte>)
    ensures ChunkWrites(peripheral, characteristic, chunks + [chunk]) ==
            ChunkWrites(peripheral, characteristic, chunks) + [WriteBytes(peripheral, characteristic, chunk, false)]
  {
    assert (chunks + [chunk])[..|chunks|] == chunks;
  }

  /** `cancelPeripheralConnection` of the state's peripheral, when it has one. */
  function CancelCurrent(s: StateBLE): seq<Command>
  {
    if s.CurrentPeripheral().Some? then [CancelConnection(s.CurrentPeripheral().value.id)] else []
  }

  /** `discoverCharacteristics(nil, for:)` for every service, in order. */
  function DiscoverEach(id: Uuid, services: seq<Service>): seq<Command>
  {
    seq(|services|, i requires 0 <= i < |services| => Command.DiscoverCharacteristics(id, services[i].uuid, None))
  }
}
