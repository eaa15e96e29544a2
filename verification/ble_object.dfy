/**
 * The BLE_Object connection manager: one object that is the CoreBluetooth
 * central-manager and peripheral delegate, runs the connection state machine,
 * routes the peripheral's notifications and uploads files in flow-controlled
 * chunks.
 *
 * Every method returns the adapter calls it makes, in order, as `calls`; the
 * answers it reads from the adapter (power state, known peripherals, the
 * maximum write length, `canSendWriteWithoutResponse`) and the files it loads
 * are parameters. Work the source hands to `DispatchQueue.main` is queued in
 * `pendingUpdates`, `pendingTransferStarts` and `pendingLedChecks` and run by
 * the step methods `MainQueueStep`, `TransferStartStep` and `LedCheckStep`.
 */
module BleObject {
  import opened Wrappers
  import opened Gatt
  import opened Adapter
  import opened ConnectionState
  import opened Reconnect
  import opened ChunkWriter
  import opened Inbound

  /** An entry of `fileBufferForSending`. */
  datatype FileItem = FileItem(folder: string, name: string, fileType: string, silent: bool)

  /** The three ways out of `poweredOff` at power-on, in the order they are tried. */
  datatype PowerOnChoice =
    | ConnectPersisted(p: Peripheral)    // the remembered peripheral, resolved by the adapter
    | ConnectSystem(p: Peripheral)       // a peripheral the system holds connected with the service
    | ScanForNew                         // `.disconnected`, then `startScanning()`

  /**
   * The choice at power-on, from the persisted identifier, the adapter's
   * known peripherals and its answer to `retrieveConnectedPeripherals`.
   */
  function ChoosePowerOn(persistedId: Option<Uuid>, registry: seq<Peripheral>,
                         systemConnected: seq<Peripheral>): (r: PowerOnChoice)
    ensures r.ConnectPersisted? <==> persistedId.Some? && exists p :: p in registry && p.id == persistedId.value
    ensures r.ConnectPersisted? ==> r.p in registry && r.p.id == persistedId.value
    ensures r.ConnectSystem? <==>
              (persistedId.None? || forall p :: p in registry ==> p.id != persistedId.value) && systemConnected != []
    ensures r.ConnectSystem? ==> r.p == systemConnected[0]
    ensures r.ScanForNew? <==>
              (persistedId.None? || forall p :: p in registry ==> p.id != persistedId.value) && systemConnected == []
  {
    var persisted := if persistedId.Some? then Retrieve(registry, persistedId.value) else None;
    if persisted.Some? then ConnectPersisted(persisted.value)
    else if systemConnected != [] then ConnectSystem(systemConnected[0])
    else ScanForNew
  }

  /** The notification switch for one discovered characteristic. */
  function NotifyOne(id: Uuid, c: Characteristic): seq<Command>
  {
    if c.uuid == StatusCharacteristicId then [SetNotify(id, c.uuid, true)]
    else if c.uuid == TransferCharacteristicId || c.uuid == OtaCharacteristicId then [SetNotify(id, c.uuid, false)]
    else []
  }

  /** The notification switches for the characteristics `cs`, in order. */
  function NotifyCommands(id: Uuid, cs: seq<Characteristic>): seq<Command>
    decreases |cs|
  {
    if cs == [] then [] else NotifyCommands(id, cs[..|cs| - 1]) + NotifyOne(id, cs[|cs| - 1])
  }

  lemma {:induction false} NotifyCommandsStep(id: Uuid, cs: seq<Characteristic>, i: nat)
    requires i < |cs|
    ensures NotifyCommands(id, cs[..i + 1]) == NotifyCommands(id, cs[..i]) + NotifyOne(id, cs[i])
  {
    assert cs[..i + 1][..i] == cs[..i];
  }

  /** The status characteristic is notifying after discovery, the two upload characteristics are not. */
  lemma {:induction false} NotifyCommandsRoles(id: Uuid, cs: seq<Characteristic>, k: nat)
    requires k < |NotifyCommands(id, cs)|
    ensures NotifyCommands(id, cs)[k].SetNotify? && NotifyCommands(id, cs)[k].peripheral == id
    ensures var c := NotifyCommands(id, cs)[k];
            c.enabled <==> c.characteristic == StatusCharacteristicId
    ensures NotifyCommands(id, cs)[k].characteristic in
              {StatusCharacteristicId, TransferCharacteristicId, OtaCharacteristicId}
    decreases |cs|
  {
    var prefix := NotifyCommands(id, cs[..|cs| - 1]);
    if k < |prefix| {
      NotifyCommandsRoles(id, cs[..|cs| - 1], k);
    }
  }


  /** The five characteristics the manager keeps, one per role. */
  datatype Roles = Roles(read: Option<Characteristic>, write: Option<Characteristic>,
                         status: Option<Characteristic>, transfer: Option<Characteristic>,
                         ota: Option<Characteristic>)

  /** The roles after the loop over `cs`: each holds the last characteristic with its UUID, or what it held before. */
  function AssignedRoles(before: Roles, cs: seq<Characteristic>): Roles
  {
    Roles(Assigned(before.read, cs, ReadCharacteristicId),
          Assigned(before.write, cs, CommandCharacteristicId),
          Assigned(before.status, cs, StatusCharacteristicId),
          Assigned(before.transfer, cs, TransferCharacteristicId),
          Assigned(before.ota, cs, OtaCharacteristicId))
  }

  /**
   * The loop of `didDiscoverCharacteristicsFor` on a copy of the five role
   * variables: every characteristic whose UUID names a role is stored in it,
   * the status characteristic is switched to notify and the two upload
   * characteristics are switched off.
   */
  method AssignRoles(id: Uuid, cs: seq<Characteristic>, roles0: Roles)
    returns (roles: Roles, calls: seq<Command>)
    ensures roles == AssignedRoles(roles0, cs)
    ensures calls == NotifyCommands(id, cs)
  {
    roles := roles0;
    calls := [];
    for i := 0 to |cs|
      invariant roles == AssignedRoles(roles0, cs[..i])
      invariant calls == NotifyCommands(id, cs[..i])
    {
      var c := cs[i];
      AssignedStep(roles0.read, cs, i, ReadCharacteristicId);
      AssignedStep(roles0.write, cs, i, CommandCharacteristicId);
      AssignedStep(roles0.status, cs, i, StatusCharacteristicId);
      AssignedStep(roles0.transfer, cs, i, TransferCharacteristicId);
      AssignedStep(roles0.ota, cs, i, OtaCharacteristicId);
      NotifyCommandsStep(id, cs, i);
      if c.uuid == ReadCharacteristicId {
        roles := roles.(read := Some(c));
      } else if c.uuid == CommandCharacteristicId {
        roles := roles.(write := Some(c));
      } else if c.uuid == StatusCharacteristicId {
        roles := roles.(status := Some(c));
        calls := calls + [SetNotify(id, c.uuid, true)];
      } else if c.uuid == TransferCharacteristicId {
        roles := roles.(transfer := Some(c));
        calls := calls + [SetNotify(id, c.uuid, false)];
      } else if c.uuid == OtaCharacteristicId {
        roles := roles.(ota := Some(c));
        calls := calls + [SetNotify(id, c.uuid, false)];
      }
    }
    assert cs[..|cs|] == cs;
  }

  /**
   * The loop of `writeDataToPeripheral(characteristic:)` on the peripheral
   * `id`, run on copies of the variables it changes: while the upload runs,
   * the link takes a write without response (`k in ready` for the k-th
   * check) and the window is not full, the first `min(chunkSize, remaining)`
   * bytes are written and removed, the watchdog is stopped and re-armed
   * with a fresh id and the progress is recomputed; the iteration that finds
   * the buffer empty ends the upload and stops the watchdog. The results are
   * exactly those of `WriteLoop`.
   */
  method WriteChunks(id: Uuid, characteristic: Characteristic, buffer0: seq<Byte>, chunkSize: int,
                     counter0: int, window: int, ongoing0: bool, ready: iset<nat>,
                     timer0: Option<TimerId>, next0: TimerId, progress0: Option<real>, dataLength: nat)
    returns (buffer: seq<Byte>, counter: int, ongoing: bool, emptied: bool, watchdog: Option<TimerId>,
             next: TimerId, progress: Option<real>, writes: seq<Command>, chunks: seq<seq<Byte>>)
    requires ongoing0 ==> chunkSize >= 1
    ensures var r := WriteLoop(buffer0, chunkSize, counter0, window, ongoing0, ready, 0);
            buffer == r.rest && counter == r.counter && emptied == r.emptied &&
            ongoing == (ongoing0 && !r.emptied) && chunks == r.chunks &&
            writes == ChunkWrites(id, characteristic.uuid, r.chunks) &&
            next == next0 + r.iterations &&
            watchdog == Watchdog(timer0, next0, r) &&
            progress == LoopProgress(progress0, dataLength, r)
  {
    buffer, counter, ongoing, emptied := buffer0, counter0, ongoing0, false;
    watchdog, next, progress := timer0, next0, progress0;
    writes, chunks := [], [];
    ghost var R := WriteLoop(buffer0, chunkSize, counter0, window, ongoing0, ready, 0);
    ResumesStart(R);
    var k: nat := 0;
    while ongoing && k in ready && counter < window
      invariant ongoing ==> chunkSize >= 1
      invariant Resumes(R, chunks, emptied, k, WriteLoop(buffer, chunkSize, counter, window, ongoing, ready, k))
      invariant ongoing == (ongoing0 && !emptied)
      invariant next == next0 + k
      invariant watchdog == Watchdog(timer0, next0, LoopResult(chunks, buffer, counter, emptied, k))
      invariant progress == LoopProgress(progress0, dataLength, LoopResult(chunks, buffer, counter, emptied, k))
      invariant writes == ChunkWrites(id, characteristic.uuid, chunks)
      decreases (if ongoing then 1 else 0), window - counter
    {
      watchdog, next := Some(next), next + 1;       // stopTimer(); startTimer()
      if buffer != [] {
        var n := Min(chunkSize, |buffer|);
        var subData := buffer[..n];
        ResumesWrite(R, chunks, emptied, k, buffer, chunkSize, counter, window, ready);
        ChunkWritesAppend(id, characteristic.uuid, chunks, subData);
        writes := writes + [WriteBytes(id, characteristic.uuid, subData, false)];
        counter := counter + 1;
        chunks := chunks + [subData];
        buffer := buffer[n..];
      } else {
        ResumesEmpty(R, chunks, emptied, k, chunkSize, counter, window, ready);
        ongoing, emptied := false, true;
        watchdog := None;                          // stopTimer()
      }
      progress := Progress(|buffer|, dataLength);
      AfterIteration(timer0, next0, progress0, dataLength, LoopResult(chunks, buffer, counter, emptied, k + 1));
      k := k + 1;
    }
    ResumesEnd(R, chunks, emptied, k, buffer, chunkSize, counter, window, ongoing, ready);
  }

  /**
   * The watchdog after a run of the loop that started with `before` armed
   * and `next0` as the next timer id: untouched when no iteration ran,
   * stopped when the buffer emptied, and otherwise the timer the last
   * iteration armed.
   */
  function Watchdog(before: Option<TimerId>, next0: TimerId, r: LoopResult): Option<TimerId>
  {
    if r.iterations == 0 then before else if r.emptied then None else Some(next0 + r.iterations - 1)
  }

  /** After at least one iteration the watchdog and the progress depend only on the last one. */
  lemma AfterIteration(timer0: Option<TimerId>, next0: TimerId, progress0: Option<real>, dataLength: nat, r: LoopResult)
    requires r.iterations > 0
    ensures Watchdog(timer0, next0, r) == if r.emptied then None else Some(next0 + r.iterations - 1)
    ensures LoopProgress(progress0, dataLength, r) == Progress(|r.rest|, dataLength)
  {
  }

  /** The transfer information `sendFile` announces for `item`, a file of `size` bytes. */
  function Announcement(item: FileItem, size: int, maxWriteLength: int): FileTransferInfo
  {
    FileTransferInfo(item.name, item.fileType, size, 99, maxWriteLength - 3,
                     if item.fileType == ".bin" then 1 else 16)
  }

  /** The connection half of the manager's invariant, on the values of its fields. */
  predicate ConnectionInv(state: StateBLE, nextTimer: TimerId, timer: Option<TimerId>, connected: bool)
  {
    CountdownsBelow(state, nextTimer) && (timer.Some? ==> timer.value < nextTimer) && (state.PoweredOff? ==> !connected)
  }

  class BLEConnection {
    /** `calculateCrc` of the local leddevice.json, computed from the file system. */
    const ledDeviceCrc: int

    var state: StateBLE
    /** The identifier the next armed timer gets. */
    var nextTimer: TimerId
    /** The identifier kept in `UserDefaults`. */
    var persistedId: Option<Uuid>

    var readCharacteristic: Option<Characteristic>
    var writeCharacteristic: Option<Characteristic>
    var statusCharacteristic: Option<Characteristic>
    var transferCharacteristic: Option<Characteristic>
    var otaCharacteristic: Option<Characteristic>

    var fileTransferOngoing: bool
    var transferSuccessful: bool
    var silentTransfer: bool
    var scanning: bool
    var connected: bool
    var bleIsOff: bool

    // The parts of the shared command/status object that the manager reads or writes.
    var playing: bool                        // statusFrequent.playing
    var downloading: bool                    // statusSeldom.downloading
    var anyFileOk: bool                      // anyFileStatus.ok
    var statusStatic: Option<Message>
    var parameter: Option<Message>
    var fileTransferInfo: FileTransferInfo
    /** Which outcome of the last m09 reply was reported to the user. */
    var transferReport: Option<TransferResult>

    var dataToSend: seq<Byte>
    var dataBuffer: seq<Byte>
    var chunkSize: int
    var dataLength: nat
    var OTAtransfer: bool
    var fileEmpty: bool
    var packageCounter: int
    /** `transferProgress` in percent; None is NaN. */
    var transferProgress: Option<real>
    /** The upload watchdog. */
    var timer: Option<TimerId>

    var fileBufferForSending: seq<FileItem>

    // Work handed to the main queue and not yet run.
    var pendingUpdates: seq<Message>
    var pendingTransferStarts: nat
    var pendingLedChecks: nat

    /** The file of the current upload and the chunks of it written so far. */
    ghost var transferFile: seq<Byte>
    ghost var sentChunks: seq<seq<Byte>>

    /** The manager's invariant. */
    ghost predicate Valid()
      reads this`state, this`nextTimer, this`timer, this`connected, this`packageCounter, this`fileTransferInfo,
            this`fileTransferOngoing, this`pendingTransferStarts, this`dataLength, this`transferFile,
            this`sentChunks, this`dataBuffer
    {
      ConnectionValid() && WindowValid() && ProgressValid()
    }

    /** Every armed timer got its id before `nextTimer`; the manager is never connected while powered off. */
    ghost predicate ConnectionValid()
      reads this`state, this`nextTimer, this`timer, this`connected
    {
      ConnectionInv(state, nextTimer, timer, connected)
    }

    /**
     * The package counter stays within the window, and the chunk size is
     * positive whenever an upload runs or is about to start.
     */
    ghost predicate WindowValid()
      reads this`packageCounter, this`fileTransferInfo, this`fileTransferOngoing, this`pendingTransferStarts
    {
      0 <= packageCounter <= fileTransferInfo.bufferLoopTimes &&
      ((fileTransferOngoing || pendingTransferStarts > 0) ==> fileTransferInfo.chunkSize >= 1)
    }

    /** The chunks written so far and the buffer left make up the file, chunk for chunk. */
    ghost predicate ProgressValid()
      reads this`fileTransferInfo, this`dataLength, this`transferFile, this`sentChunks, this`dataBuffer
    {
      dataLength == |transferFile| && UploadInv(transferFile, sentChunks, dataBuffer, fileTransferInfo.chunkSize)
    }

    /** A step keeps the invariant, hands out timer ids only upwards and releases replaced countdowns. */
    twostate predicate Evolves()
      reads this`state, this`nextTimer, this`timer, this`connected, this`packageCounter, this`fileTransferInfo,
            this`fileTransferOngoing, this`pendingTransferStarts, this`dataLength, this`transferFile,
            this`sentChunks, this`dataBuffer
    {
      Valid() && old(nextTimer) <= nextTimer && ReleasesCountdown(old(state), state, old(nextTimer))
    }

    /** The characteristic an upload writes to. */
    function Target(): Option<Characteristic>
      reads this`OTAtransfer, this`otaCharacteristic, this`transferCharacteristic
    {
      if OTAtransfer then otaCharacteristic else transferCharacteristic
    }

    constructor (ledDeviceCrc: int, persistedId: Option<Uuid>)
      ensures Valid()
      ensures this.ledDeviceCrc == ledDeviceCrc && this.persistedId == persistedId
      ensures state == StateBLE.PoweredOff && fileBufferForSending == [] && pendingUpdates == []
      ensures !connected && !scanning && !fileTransferOngoing && transferProgress == Some(0.0)
    {
      this.ledDeviceCrc := ledDeviceCrc;
      this.persistedId := persistedId;
      state := StateBLE.PoweredOff;
      nextTimer := 0;
      readCharacteristic, writeCharacteristic, statusCharacteristic := None, None, None;
      transferCharacteristic, otaCharacteristic := None, None;
      fileTransferOngoing, transferSuccessful, silentTransfer := false, false, false;
      scanning, connected, bleIsOff := false, false, false;
      playing, downloading, anyFileOk := false, false, false;
      statusStatic, parameter := None, None;
      fileTransferInfo := FileTransferInfo("", "", 0, 0, 0, 0);
      transferReport := None;
      dataToSend, dataBuffer, chunkSize, dataLength := [], [], 0, 0;
      OTAtransfer, fileEmpty, packageCounter := false, false, 0;
      transferProgress, timer := Some(0.0), None;
      fileBufferForSending := [];
      pendingUpdates, pendingTransferStarts, pendingLedChecks := [], 0, 0;
      transferFile, sentChunks := [], [];
    }

    /*------------------------------------------------------------------
      Effects shared by several handlers
    ------------------------------------------------------------------*/

    /** `disconnect(forget:)` ran from the state at entry. */
    twostate predicate AfterDisconnect(forget: bool)
      reads this`state, this`connected, this`scanning, this`fileTransferOngoing, this`persistedId
    {
      state == Disconnected && !connected && !scanning && !fileTransferOngoing &&
      persistedId == (if forget then None else old(persistedId))
    }

    /** `connect(peripheral:)` ran and made the calls `calls`. */
    twostate predicate AfterConnect(p: Peripheral, calls: seq<Command>)
      reads this`state, this`nextTimer
    {
      (old(connected) ==> state == old(state) && nextTimer == old(nextTimer) && calls == [CancelConnection(p.id)]) &&
      (!old(connected) ==> state == Connecting(p, old(nextTimer)) && nextTimer == old(nextTimer) + 1 &&
                           calls == [Command.Connect(p.id)])
    }

    /** The JSON write `sendJsonBLE` issues for `request` in this state, if any. */
    ghost function JsonWrite(request: Request): seq<Command>
      reads this`playing, this`writeCharacteristic, this`state
    {
      if playing || writeCharacteristic.None? || state.CurrentPeripheral().None? then []
      else [WriteRequest(state.CurrentPeripheral().value.id, writeCharacteristic.value.uuid, request)]
    }

    /** The status request and the leddevice.json check that `setConnected` sends. */
    ghost function GreetingWrites(): seq<Command>
      reads this`downloading, this`fileTransferOngoing, this`playing, this`writeCharacteristic, this`state
    {
      (if !downloading && !fileTransferOngoing then JsonWrite(StatusRequest(true, false)) else []) +
      (if fileTransferOngoing then [] else JsonWrite(FileCheck("leddevice", ".json", ledDeviceCrc)))
    }

    /** The calls `setConnected(peripheral:)` makes once it found the desired characteristic of `p`. */
    ghost function SetConnectedCalls(p: Peripheral): seq<Command>
      reads this`downloading, this`fileTransferOngoing, this`playing, this`writeCharacteristic, this`state
    {
      [SetNotify(p.id, MyDesiredCharacteristicId, true)] + GreetingWrites()
    }

    /** `setConnected(peripheral:)` found the desired characteristic of `p`: the state it leaves. */
    twostate predicate BecameConnected(p: Peripheral)
      reads this`state, this`connected, this`persistedId, this`scanning, this`anyFileOk, this`pendingLedChecks
    {
      state == Connected(p) && connected && persistedId == Some(p.id) &&
      scanning == old(scanning) && !anyFileOk && pendingLedChecks == old(pendingLedChecks) + 1
    }

    /** The remembered id, the link flag, the upload flag and the leddevice.json check are as they were. */
    twostate predicate SessionKept()
      reads this`persistedId, this`connected, this`fileTransferOngoing, this`anyFileOk, this`pendingLedChecks
    {
      persistedId == old(persistedId) && connected == old(connected) &&
      fileTransferOngoing == old(fileTransferOngoing) && anyFileOk == old(anyFileOk) &&
      pendingLedChecks == old(pendingLedChecks)
    }

    /** `setConnected(peripheral:)` found the desired characteristic of `p` and made the calls `calls`. */
    twostate predicate AfterSetConnected(p: Peripheral, calls: seq<Command>)
      reads this`state, this`connected, this`persistedId, this`scanning, this`anyFileOk, this`pendingLedChecks,
            this`downloading, this`fileTransferOngoing, this`playing, this`writeCharacteristic
    {
      BecameConnected(p) && calls == SetConnectedCalls(p)
    }

    /*------------------------------------------------------------------
      The watchdog
    ------------------------------------------------------------------*/

    /**
     * `uploadTimeOut`: the watchdog `t` fired and the upload is abandoned;
     * a watchdog that was stopped or replaced never fires.
     */
    method UploadTimeOut(t: TimerId)
      requires Valid()
      modifies this`fileEmpty, this`OTAtransfer, this`fileTransferOngoing, this`transferSuccessful,
               this`silentTransfer, this`timer
      ensures Evolves()
      ensures old(timer) != Some(t) ==> unchanged(this)
      ensures old(timer) == Some(t) ==>
                fileEmpty && !OTAtransfer && !fileTransferOngoing && !transferSuccessful &&
                !silentTransfer && timer == None
    {
      if timer != Some(t) { return; }
      fileEmpty, OTAtransfer, fileTransferOngoing := true, false, false;
      transferSuccessful, silentTransfer := false, false;
      timer := None;      // stopTimer()
    }

    /*------------------------------------------------------------------
      Requests to the peripheral
    ------------------------------------------------------------------*/

    /** `send(_:)`: raw bytes, with response, unless an upload runs. */
    method Send(value: seq<Byte>) returns (calls: seq<Command>)
      ensures fileTransferOngoing ==> calls == []
      ensures !fileTransferOngoing && writeCharacteristic.Some? && state.CurrentPeripheral().Some? ==>
                calls == [WriteBytes(state.CurrentPeripheral().value.id, writeCharacteristic.value.uuid, value, true)]
      ensures writeCharacteristic.None? || state.CurrentPeripheral().None? ==> calls == []
    {
      calls := [];
      if fileTransferOngoing { return; }
      if writeCharacteristic.None? { return; }
      var p := state.CurrentPeripheral();
      if p.Some? {
        calls := [WriteBytes(p.value.id, writeCharacteristic.value.uuid, value, true)];
      }
    }

    /**
     * `sendJsonBLE(messageData:)`: refused while the LED is projecting or
     * before the command characteristic is known, and either refusal ends an
     * upload.
     */
    method SendJsonBLE(request: Request) returns (calls: seq<Command>)
      modifies this`fileTransferOngoing
      ensures old(Valid()) ==> Valid()
      ensures fileTransferOngoing == (old(fileTransferOngoing) && !playing && writeCharacteristic.Some?)
      ensures calls == JsonWrite(request)
    {
      calls := [];
      if playing {
        fileTransferOngoing := false;
        return;
      }
      if writeCharacteristic.None? {
        fileTransferOngoing := false;
        return;
      }
      var p := state.CurrentPeripheral();
      if p.Some? {
        calls := [WriteRequest(p.value.id, writeCharacteristic.value.uuid, request)];
      }
    }

    /** `askForStatus()`: only when connected, not downloading and not uploading. */
    method AskForStatus() returns (calls: seq<Command>)
      modifies this`fileTransferOngoing
      ensures fileTransferOngoing == old(fileTransferOngoing)
      ensures calls == (if connected && !downloading && !fileTransferOngoing then JsonWrite(StatusRequest(true, false))
                        else [])
    {
      calls := [];
      if connected && !downloading {
        if !fileTransferOngoing {
          calls := SendJsonBLE(StatusRequest(true, false));
        }
      }
    }

    /** `askForCrc()`: the same guards, asking for the list of file CRCs. */
    method AskForCrc() returns (calls: seq<Command>)
      modifies this`fileTransferOngoing
      ensures fileTransferOngoing == old(fileTransferOngoing)
      ensures calls == (if connected && !downloading && !fileTransferOngoing then JsonWrite(StatusRequest(false, true))
                        else [])
    {
      calls := [];
      if connected && !downloading {
        if !fileTransferOngoing {
          calls := SendJsonBLE(StatusRequest(false, true));
        }
      }
    }

    /** `sendFileCheckToController`: clears the availability answer and asks again unless an upload runs. */
    method SendFileCheckToController(fileName: string, fileExtension: string, crc: int) returns (calls: seq<Command>)
      modifies this`anyFileOk, this`fileTransferOngoing
      ensures !anyFileOk && fileTransferOngoing == old(fileTransferOngoing)
      ensures calls == (if fileTransferOngoing then [] else JsonWrite(FileCheck(fileName, fileExtension, crc)))
    {
      anyFileOk := false;
      calls := [];
      if !fileTransferOngoing {
        calls := SendJsonBLE(FileCheck(fileName, fileExtension, crc));
      }
    }

    /** `checkLedDeviceJson()`: the check now, the upload decision 0.3 s later. */
    method CheckLedDeviceJson() returns (calls: seq<Command>)
      modifies this`anyFileOk, this`fileTransferOngoing, this`pendingLedChecks
      ensures !anyFileOk && fileTransferOngoing == old(fileTransferOngoing)
      ensures calls == (if fileTransferOngoing then [] else JsonWrite(FileCheck("leddevice", ".json", ledDeviceCrc)))
      ensures pendingLedChecks == old(pendingLedChecks) + 1
    {
      calls := SendFileCheckToController("leddevice", ".json", ledDeviceCrc);
      pendingLedChecks := pendingLedChecks + 1;
    }

    /** The deferred half of `checkLedDeviceJson()`: upload the file unless the peripheral has it. */
    method LedCheckStep(load: Option<seq<Byte>>, maxWriteLength: int) returns (calls: seq<Command>)
      requires Valid() && pendingLedChecks > 0 && maxWriteLength > 3
      modifies this`pendingLedChecks, this`silentTransfer, this`OTAtransfer, this`dataBuffer, this`fileEmpty,
               this`dataLength, this`fileTransferInfo, this`fileTransferOngoing, this`packageCounter,
               this`pendingTransferStarts, this`transferFile, this`sentChunks
      ensures Evolves() && pendingLedChecks == old(pendingLedChecks) - 1
      ensures old(anyFileOk) ==> FileIdle() && calls == []
      ensures !old(anyFileOk) ==> SentFile(FileItem("", "leddevice", ".json", true), load, maxWriteLength, calls)
    {
      pendingLedChecks := pendingLedChecks - 1;
      calls := [];
      if !anyFileOk {
        calls := SendFile("", "leddevice", ".json", true, load, maxWriteLength);
      }
    }

    /*------------------------------------------------------------------
      Connection state machine: actions
    ------------------------------------------------------------------*/

    /** `startScanning()`: scans for the desired service with a 10-second countdown, if powered on. */
    method StartScanning(managerState: ManagerState) returns (calls: seq<Command>)
      requires Valid()
      modifies this`scanning, this`state, this`nextTimer
      ensures Evolves()
      ensures managerState != ManagerState.PoweredOn ==>
                !scanning && state == old(state) && nextTimer == old(nextTimer) && calls == []
      ensures managerState == ManagerState.PoweredOn ==>
                scanning && state == Scanning(old(nextTimer)) && nextTimer == old(nextTimer) + 1 &&
                calls == [ScanForPeripherals([MyDesiredServiceId])]
    {
      scanning := true;
      calls := [];
      if managerState != ManagerState.PoweredOn {
        scanning := false;
        return;
      }
      calls := [ScanForPeripherals([MyDesiredServiceId])];
      state, nextTimer := Scanning(nextTimer), nextTimer + 1;
    }

    /** `disconnect(forget:)`: always ends disconnected; only `forget` drops the remembered id. */
    method Disconnect(forget: bool) returns (calls: seq<Command>)
      requires Valid()
      modifies this`persistedId, this`state, this`connected, this`scanning, this`fileTransferOngoing
      ensures Evolves() && AfterDisconnect(forget) && calls == CancelCurrent(old(state))
    {
      calls := CancelCurrent(state);
      if forget {
        persistedId := None;
      }
      state, connected, scanning, fileTransferOngoing := Disconnected, false, false, false;
    }

    /** `connect(peripheral:)`: a connect with a 10-second countdown, or only a cancel while connected. */
    method Connect(p: Peripheral) returns (calls: seq<Command>)
      requires Valid()
      modifies this`state, this`nextTimer
      ensures Evolves() && AfterConnect(p, calls)
    {
      if connected {
        calls := [CancelConnection(p.id)];
      } else {
        calls := [Command.Connect(p.id)];
        state, nextTimer := Connecting(p, nextTimer), nextTimer + 1;
      }
    }

    /** `discoverServices(peripheral:)`: looks for the desired service with a 10-second countdown. */
    method DiscoverServices(p: Peripheral) returns (calls: seq<Command>)
      requires Valid()
      modifies this`state, this`nextTimer
      ensures Evolves()
      ensures state == DiscoveringServices(p, old(nextTimer)) && nextTimer == old(nextTimer) + 1
      ensures calls == [Command.DiscoverServices(p.id, [MyDesiredServiceId])]
    {
      calls := [Command.DiscoverServices(p.id, [MyDesiredServiceId])];
      state, nextTimer := DiscoveringServices(p, nextTimer), nextTimer + 1;
    }

    /** `discoverCharacteristics(peripheral:)`: asks the desired service for the desired characteristic. */
    method DiscoverCharacteristics(p: Peripheral) returns (calls: seq<Command>)
      requires Valid()
      modifies this`persistedId, this`state, this`connected, this`scanning, this`fileTransferOngoing, this`nextTimer
      ensures Evolves()
      ensures MyDesiredService(p).None? ==>
                AfterDisconnect(false) && calls == CancelCurrent(old(state)) && nextTimer == old(nextTimer)
      ensures MyDesiredService(p).Some? ==>
                state == DiscoveringCharacteristics(p, old(nextTimer)) && nextTimer == old(nextTimer) + 1 &&
                calls == [Command.DiscoverCharacteristics(p.id, MyDesiredServiceId, Some([MyDesiredCharacteristicId]))] &&
                connected == old(connected) && scanning == old(scanning) &&
                fileTransferOngoing == old(fileTransferOngoing) && persistedId == old(persistedId)
    {
      var service := MyDesiredService(p);
      if service.None? {
        calls := Disconnect(false);
        return;
      }
      calls := [Command.DiscoverCharacteristics(p.id, service.value.uuid, Some([MyDesiredCharacteristicId]))];
      state, nextTimer := DiscoveringCharacteristics(p, nextTimer), nextTimer + 1;
    }

    /**
     * `setConnected(peripheral:)`: without the desired characteristic it
     * disconnects; with it, the id is remembered, notifications are switched
     * on, the state is `connected(p)` and the status request and the
     * leddevice.json check go out.
     */
    method SetConnected(p: Peripheral) returns (calls: seq<Command>)
      requires Valid()
      modifies this`persistedId, this`state, this`connected, this`scanning, this`fileTransferOngoing,
               this`anyFileOk, this`pendingLedChecks
      ensures Evolves() && fileTransferOngoing == (old(fileTransferOngoing) && MyDesiredCharacteristic(p).Some?)
      ensures MyDesiredCharacteristic(p).None? ==>
                AfterDisconnect(false) && calls == CancelCurrent(old(state)) &&
                anyFileOk == old(anyFileOk) && pendingLedChecks == old(pendingLedChecks)
      ensures MyDesiredCharacteristic(p).Some? ==> AfterSetConnected(p, calls)
    {
      if MyDesiredCharacteristic(p).None? {
        calls := Disconnect(false);
      } else {
        calls := BecomeConnected(p);
      }
    }

    /** `setConnected(peripheral:)` once the desired characteristic is found. */
    method BecomeConnected(p: Peripheral) returns (calls: seq<Command>)
      requires Valid() && MyDesiredCharacteristic(p).Some?
      modifies this`persistedId, this`state, this`connected, this`fileTransferOngoing, this`anyFileOk,
               this`pendingLedChecks
      ensures Evolves() && fileTransferOngoing == old(fileTransferOngoing) && AfterSetConnected(p, calls)
    {
      MarkConnected(p);
      var greeting := SendGreeting();
      calls := [SetNotify(p.id, MyDesiredCharacteristic(p).value.uuid, true)] + greeting;
    }

    /** The state change of `setConnected(peripheral:)`: the id is remembered and the state is `connected(p)`. */
    method MarkConnected(p: Peripheral)
      requires Valid()
      modifies this`persistedId, this`state, this`connected
      ensures Evolves() && persistedId == Some(p.id) && state == Connected(p) && connected
    {
      persistedId, state, connected := Some(p.id), Connected(p), true;
    }

    /** The status request and the leddevice.json check, as `setConnected` sends them. */
    method SendGreeting() returns (calls: seq<Command>)
      requires Valid() && connected
      modifies this`fileTransferOngoing, this`anyFileOk, this`pendingLedChecks
      ensures Valid() && calls == GreetingWrites() && fileTransferOngoing == old(fileTransferOngoing)
      ensures !anyFileOk && pendingLedChecks == old(pendingLedChecks) + 1
    {
      var status := AskForStatus();
      var check := CheckLedDeviceJson();
      calls := status + check;
    }

    /**
     * `cleanup()`: cancels the connection of the state's peripheral when the
     * link is up; `linkConnected` is the peripheral's own connection state.
     */
    method Cleanup(linkConnected: bool) returns (calls: seq<Command>)
      ensures calls == (if linkConnected then CancelCurrent(state) else [])
    {
      var p := state.CurrentPeripheral();
      calls := [];
      if p.None? || !linkConnected { return; }
      calls := [CancelConnection(p.value.id)];
    }

    /** A state's countdown `t` fired; it takes effect only while the current state owns `t`. */
    method CountdownFired(t: TimerId) returns (calls: seq<Command>)
      requires Valid()
      modifies this`persistedId, this`state, this`connected, this`scanning, this`fileTransferOngoing
      ensures Evolves()
      ensures old(state).OwnedCountdown() != Some(t) ==> unchanged(this) && calls == []
      ensures old(state) == Scanning(t) ==>
                !scanning && state == Disconnected && calls == [StopScan] &&
                connected == old(connected) && fileTransferOngoing == old(fileTransferOngoing) &&
                persistedId == old(persistedId)
      ensures old(state).Connecting? && old(state).countdown == t ==>
                state == Disconnected && !connected && !scanning && calls == [CancelConnection(old(state).p.id)] &&
                fileTransferOngoing == old(fileTransferOngoing) && persistedId == old(persistedId)
      ensures (old(state).DiscoveringServices? || old(state).DiscoveringCharacteristics?) && old(state).countdown == t ==>
                AfterDisconnect(false) && calls == CancelCurrent(old(state))
    {
      calls := [];
      if state.OwnedCountdown() != Some(t) { return; }
      match state
      case Scanning(_) =>
        calls := [StopScan];
        scanning, state := false, Disconnected;
      case Connecting(p, _) =>
        calls := [CancelConnection(p.id)];
        state, connected, scanning := Disconnected, false, false;
      case DiscoveringServices(_, _) =>
        calls := Disconnect(false);
      case DiscoveringCharacteristics(_, _) =>
        calls := Disconnect(false);
    }

    /*------------------------------------------------------------------
      Connection state machine: central manager events
    ------------------------------------------------------------------*/

    /**
     * `centralManagerDidUpdateState`: powered off raises the flag; powered on
     * leaves `poweredOff` by the first of: the remembered peripheral, a
     * system-connected one, a scan.
     */
    method DidUpdateState(managerState: ManagerState, registry: seq<Peripheral>, systemConnected: seq<Peripheral>)
      returns (calls: seq<Command>)
      requires Valid()
      modifies this`bleIsOff, this`scanning, this`state, this`nextTimer, this`persistedId,
               this`connected, this`fileTransferOngoing, this`anyFileOk, this`pendingLedChecks
      ensures Evolves()
      ensures managerState != ManagerState.PoweredOff && managerState != ManagerState.PoweredOn ==>
                unchanged(this) && calls == []
      ensures managerState == ManagerState.PoweredOff ==>
                bleIsOff && state == old(state) && scanning == old(scanning) && nextTimer == old(nextTimer) &&
                SessionKept() && calls == []
      ensures managerState == ManagerState.PoweredOn ==> PoweredOnStep(registry, systemConnected, calls)
    {
      calls := [];
      match managerState
      case PoweredOff =>
        bleIsOff := true;
      case PoweredOn =>
        calls := PowerOn(registry, systemConnected);
      case _ =>
    }

    /**
     * The `poweredOn` branch: from `poweredOff` the fallback order, from the
     * two restoring states their resumption, from any other state nothing.
     */
    twostate predicate PoweredOnStep(registry: seq<Peripheral>, systemConnected: seq<Peripheral>, calls: seq<Command>)
      reads this
    {
      var restoring := old(state).RestoringConnectingPeripheral? || old(state).RestoringConnectedPeripheral?;
      bleIsOff == old(bleIsOff) &&
      (old(state).PoweredOff? ==> FromOffStep(registry, systemConnected, calls)) &&
      (restoring ==> ResumedStep(calls)) &&
      (!old(state).PoweredOff? && !restoring ==> unchanged(this) && calls == [])
    }

    /**
     * Leaving `poweredOff`: connect to the remembered peripheral, else to a
     * system-connected one, else scan; the session is kept and one timer id used.
     */
    twostate predicate FromOffStep(registry: seq<Peripheral>, systemConnected: seq<Peripheral>, calls: seq<Command>)
      reads this
    {
      SessionKept() && nextTimer == old(nextTimer) + 1 &&
      match ChoosePowerOn(old(persistedId), registry, systemConnected)
      case ConnectPersisted(q) => state == Connecting(q, old(nextTimer)) && scanning == old(scanning) &&
                                  calls == [Command.Connect(q.id)]
      case ConnectSystem(q) => state == Connecting(q, old(nextTimer)) && scanning == old(scanning) &&
                               calls == [Command.Connect(q.id)]
      case ScanForNew => scanning && state == Scanning(old(nextTimer)) &&
                         calls == [ScanForPeripherals([MyDesiredServiceId])]
    }

    /**
     * Resuming a restored peripheral: a connecting one is connected again; a
     * connected one is rediscovered when its characteristic is unknown and
     * set connected otherwise.
     */
    twostate predicate ResumedStep(calls: seq<Command>)
      reads this
    {
      (old(state).RestoringConnectingPeripheral? ==>
         AfterConnect(old(state).p, calls) && scanning == old(scanning) && SessionKept()) &&
      (old(state).RestoringConnectedPeripheral? ==>
         var q := old(state).p;
         if MyDesiredCharacteristic(q).None? then
           state == DiscoveringServices(q, old(nextTimer)) && nextTimer == old(nextTimer) + 1 &&
           scanning == old(scanning) && SessionKept() &&
           calls == [Command.DiscoverServices(q.id, [MyDesiredServiceId])]
         else
           AfterSetConnected(q, calls) && nextTimer == old(nextTimer) &&
           fileTransferOngoing == old(fileTransferOngoing))
    }

    /** `centralManagerDidUpdateState` on `poweredOn`. */
    method PowerOn(registry: seq<Peripheral>, systemConnected: seq<Peripheral>) returns (calls: seq<Command>)
      requires Valid()
      modifies this`scanning, this`state, this`nextTimer, this`persistedId,
               this`connected, this`fileTransferOngoing, this`anyFileOk, this`pendingLedChecks
      ensures Evolves() && PoweredOnStep(registry, systemConnected, calls)
    {
      calls := [];
      if state.PoweredOff? {
        calls := PowerOnFromOff(registry, systemConnected);
      } else if state.RestoringConnectingPeripheral? || state.RestoringConnectedPeripheral? {
        calls := ResumeRestored();
      }
    }

    /** The power-on branches taken from the two states a restoration left. */
    method ResumeRestored() returns (calls: seq<Command>)
      requires Valid() && (state.RestoringConnectingPeripheral? || state.RestoringConnectedPeripheral?)
      modifies this`scanning, this`state, this`nextTimer, this`persistedId,
               this`connected, this`fileTransferOngoing, this`anyFileOk, this`pendingLedChecks
      ensures Evolves() && ResumedStep(calls)
    {
      if state.RestoringConnectingPeripheral? {
        calls := Connect(state.p);
      } else {
        var q := state.p;
        if MyDesiredCharacteristic(q).None? {
          calls := DiscoverServices(q);
        } else {
          calls := SetConnected(q);
        }
      }
    }

    /** The power-on branch taken from `poweredOff`. */
    method PowerOnFromOff(registry: seq<Peripheral>, systemConnected: seq<Peripheral>) returns (calls: seq<Command>)
      requires Valid() && state.PoweredOff?
      modifies this`scanning, this`state, this`nextTimer
      ensures Evolves() && FromOffStep(registry, systemConnected, calls)
    {
      match ChoosePowerOn(persistedId, registry, systemConnected)
      case ConnectPersisted(q) =>
        calls := Connect(q);
      case ConnectSystem(q) =>
        calls := Connect(q);
      case ScanForNew =>
        state := Disconnected;
        calls := StartScanning(ManagerState.PoweredOn);
    }

    /** `didDiscover`: only while scanning; stops the scan and connects. */
    method DidDiscover(p: Peripheral) returns (calls: seq<Command>)
      requires Valid()
      modifies this`scanning, this`state, this`nextTimer
      ensures Evolves()
      ensures !old(state).Scanning? ==> unchanged(this) && calls == []
      ensures old(state).Scanning? ==> scanning && |calls| >= 1 && calls[0] == StopScan && AfterConnect(p, calls[1..])
    {
      calls := [];
      if !state.Scanning? { return; }
      scanning := true;
      var c := Connect(p);
      calls := [StopScan] + c;
    }

    /**
     * `didConnect`: ends any upload and clears pending data, then discovers
     * services unless the desired characteristic is already known.
     */
    method DidConnect(p: Peripheral) returns (calls: seq<Command>)
      requires Valid()
      modifies this`fileTransferOngoing, this`dataToSend, this`state, this`nextTimer, this`persistedId,
               this`connected, this`scanning, this`anyFileOk, this`pendingLedChecks
      ensures Evolves() && !fileTransferOngoing && dataToSend == []
      ensures MyDesiredCharacteristic(p).None? ==>
                state == DiscoveringServices(p, old(nextTimer)) && nextTimer == old(nextTimer) + 1 &&
                calls == [Command.DiscoverServices(p.id, [MyDesiredServiceId])] &&
                connected == old(connected) && persistedId == old(persistedId) && scanning == old(scanning) &&
                anyFileOk == old(anyFileOk) && pendingLedChecks == old(pendingLedChecks)
      ensures MyDesiredCharacteristic(p).Some? ==> AfterSetConnected(p, calls) && nextTimer == old(nextTimer)
    {
      ClearTransfer();
      if MyDesiredCharacteristic(p).None? {
        calls := DiscoverServices(p);
      } else {
        calls := SetConnected(p);
      }
    }

    /** The first statements of `didConnect`: no upload runs and no data is pending. */
    method ClearTransfer()
      requires Valid()
      modifies this`fileTransferOngoing, this`dataToSend
      ensures Valid() && !fileTransferOngoing && dataToSend == []
      ensures state == old(state) && nextTimer == old(nextTimer) && connected == old(connected) &&
              persistedId == old(persistedId) && scanning == old(scanning) && anyFileOk == old(anyFileOk) &&
              pendingLedChecks == old(pendingLedChecks)
    {
      fileTransferOngoing, dataToSend := false, [];
    }

    /**
     * `didFailToConnect`: always `.disconnected`; the cleanup that follows
     * finds no peripheral in that state and does nothing.
     */
    method DidFailToConnect(p: Peripheral, linkConnected: bool) returns (calls: seq<Command>)
      requires Valid()
      modifies this`state
      ensures Evolves() && state == Disconnected && calls == []
    {
      state := Disconnected;
      calls := Cleanup(linkConnected);
    }

    /**
     * `didDisconnectPeripheral`: ends any upload and the projection and
     * download flags; for the current peripheral, reconnects without a
     * timeout when the error says out of range, else `.disconnected`.
     */
    method DidDisconnect(p: Peripheral, error: Option<BleError>) returns (calls: seq<Command>)
      requires Valid()
      modifies this`fileTransferOngoing, this`playing, this`downloading, this`connected, this`state
      ensures Evolves() && !fileTransferOngoing && !playing && !downloading
      ensures match OnDisconnect(old(state), p.id, error)
              case Ignore => state == old(state) && connected == old(connected) && calls == []
              case ReconnectWhenInRange => state == OutOfRange(p) && !connected && calls == [Command.Connect(p.id)]
              case Terminal => state == Disconnected && !connected && calls == []
    {
      var reaction := OnDisconnect(state, p.id, error);
      fileTransferOngoing, playing, downloading := false, false, false;
      calls := [];
      match reaction
      case Ignore =>
      case ReconnectWhenInRange =>
        calls := [Command.Connect(p.id)];
        connected, state := false, OutOfRange(p);
      case Terminal =>
        connected, state := false, Disconnected;
    }

    /*------------------------------------------------------------------
      Connection state machine: peripheral events
    ------------------------------------------------------------------*/

    /**
     * `didDiscoverServices`: only while discovering services; an error or a
     * missing desired service disconnects, else the characteristics of every
     * service are discovered and the state stays as it is.
     */
    method DidDiscoverServices(p: Peripheral, error: bool) returns (calls: seq<Command>)
      requires Valid()
      modifies this`persistedId, this`state, this`connected, this`scanning, this`fileTransferOngoing
      ensures Evolves()
      ensures !old(state).DiscoveringServices? ==> unchanged(this) && calls == []
      ensures old(state).DiscoveringServices? && (error || MyDesiredService(p).None?) ==>
                AfterDisconnect(false) && calls == CancelCurrent(old(state))
      ensures old(state).DiscoveringServices? && !error && MyDesiredService(p).Some? ==>
                unchanged(this) && calls == DiscoverEach(p.id, p.services.value)
    {
      calls := [];
      if !state.DiscoveringServices? { return; }
      if error {
        calls := Disconnect(false);
        return;
      }
      if MyDesiredService(p).None? {
        calls := Disconnect(false);
        return;
      }
      var services := p.services.value;
      for i := 0 to |services|
        invariant calls == DiscoverEach(p.id, services[..i])
      {
        assert DiscoverEach(p.id, services[..i + 1]) ==
               DiscoverEach(p.id, services[..i]) + [Command.DiscoverCharacteristics(p.id, services[i].uuid, None)];
        calls := calls + [Command.DiscoverCharacteristics(p.id, services[i].uuid, None)];
      }
      assert services[..|services|] == services;
    }

    /**
     * `didDiscoverCharacteristicsFor`: an error or a missing desired
     * characteristic disconnects; otherwise each characteristic is stored in
     * its role, status is switched to notify and the upload characteristics
     * are not, and the peripheral becomes connected.
     */
    method DidDiscoverCharacteristics(p: Peripheral, service: Service, error: bool) returns (calls: seq<Command>)
      requires Valid()
      modifies this`readCharacteristic, this`writeCharacteristic, this`statusCharacteristic,
               this`transferCharacteristic, this`otaCharacteristic,
               this`persistedId, this`state, this`connected, this`scanning, this`fileTransferOngoing,
               this`anyFileOk, this`pendingLedChecks
      ensures Evolves()
      ensures error || MyDesiredCharacteristic(p).None? ==>
                AfterDisconnect(false) && calls == CancelCurrent(old(state)) &&
                CurrentRoles() == old(CurrentRoles()) &&
                anyFileOk == old(anyFileOk) && pendingLedChecks == old(pendingLedChecks)
      ensures !error && MyDesiredCharacteristic(p).Some? && service.characteristics.None? ==>
                unchanged(this) && calls == []
      ensures !error && MyDesiredCharacteristic(p).Some? && service.characteristics.Some? ==>
                Configured(p, service.characteristics.value, calls)
    {
      calls := [];
      if error || MyDesiredCharacteristic(p).None? {
        calls := Disconnect(false);
      } else if service.characteristics.Some? {
        calls := Configure(p, service.characteristics.value);
      }
    }

    /**
     * The characteristics `cs` of `p` were stored by role, the notification
     * switches issued, and `setConnected` ran with the desired characteristic
     * present.
     */
    twostate predicate Configured(p: Peripheral, cs: seq<Characteristic>, calls: seq<Command>)
      reads this`readCharacteristic, this`writeCharacteristic, this`statusCharacteristic, this`transferCharacteristic,
            this`otaCharacteristic, this`fileTransferOngoing, this`state, this`connected, this`persistedId,
            this`scanning, this`anyFileOk, this`pendingLedChecks, this`downloading, this`playing
    {
      var notify := NotifyCommands(p.id, cs);
      CurrentRoles() == AssignedRoles(old(CurrentRoles()), cs) &&
      fileTransferOngoing == old(fileTransferOngoing) &&
      BecameConnected(p) && calls == notify + SetConnectedCalls(p)
    }

    /** The loop over the discovered characteristics, followed by `setConnected(peripheral:)`. */
    method Configure(p: Peripheral, cs: seq<Characteristic>) returns (calls: seq<Command>)
      requires Valid() && MyDesiredCharacteristic(p).Some?
      modifies this`readCharacteristic, this`writeCharacteristic, this`statusCharacteristic,
               this`transferCharacteristic, this`otaCharacteristic,
               this`persistedId, this`state, this`connected, this`scanning, this`fileTransferOngoing,
               this`anyFileOk, this`pendingLedChecks
      ensures Evolves() && Configured(p, cs, calls)
    {
      var roles, notify := AssignRoles(p.id, cs, CurrentRoles());
      StoreRoles(roles);
      var connect := BecomeConnected(p);
      calls := notify + connect;
    }

    /** The five characteristic roles as one record. */
    function CurrentRoles(): Roles
      reads this`readCharacteristic, this`writeCharacteristic, this`statusCharacteristic,
            this`transferCharacteristic, this`otaCharacteristic
    {
      Roles(readCharacteristic, writeCharacteristic, statusCharacteristic, transferCharacteristic, otaCharacteristic)
    }

    /** Stores the five characteristic roles. */
    method StoreRoles(roles: Roles)
      requires Valid()
      modifies this`readCharacteristic, this`writeCharacteristic, this`statusCharacteristic,
               this`transferCharacteristic, this`otaCharacteristic
      ensures CurrentRoles() == roles
      ensures Valid()
    {
      readCharacteristic, writeCharacteristic, statusCharacteristic := roles.read, roles.write, roles.status;
      transferCharacteristic, otaCharacteristic := roles.transfer, roles.ota;
    }

    /** `didUpdateNotificationStateFor`: a characteristic that stopped notifying is switched back on. */
    method DidUpdateNotificationState(p: Peripheral, characteristic: Characteristic, isNotifying: bool, error: bool)
      returns (calls: seq<Command>)
      ensures !error && !isNotifying ==> calls == [SetNotify(p.id, characteristic.uuid, true)]
      ensures error || isNotifying ==> calls == []
    {
      calls := [];
      if !error && !isNotifying {
        calls := [SetNotify(p.id, characteristic.uuid, true)];
      }
    }

    /*------------------------------------------------------------------
      Inbound notifications
    ------------------------------------------------------------------*/

    /**
     * `didUpdateValueFor`: a one-byte value during an upload is the
     * acknowledgement, which resets the window and resumes writing; any
     * value is then routed by its message id and, when it decodes, queued
     * for the main queue. A decode failure changes nothing.
     */
    method DidUpdateValueFor(value: Option<seq<Byte>>, error: bool,
                             decode: (Tag, seq<Byte>) -> Option<Message>, ready: iset<nat>)
      returns (calls: seq<Command>)
      requires Valid() && IsDecoder(decode)
      requires !error && value.Some? && |value.value| == 1 && fileTransferOngoing ==> Target().Some?
      modifies this`chunkSize, this`dataBuffer, this`packageCounter, this`fileTransferOngoing, this`fileEmpty,
               this`OTAtransfer, this`timer, this`nextTimer, this`transferProgress, this`sentChunks,
               this`pendingUpdates
      ensures Evolves()
      ensures !error && value.Some? && |value.value| == 1 && old(fileTransferOngoing) ==>
                LoopRan(old(Target()).value, ready, 0, true, calls)
      ensures !(!error && value.Some? && |value.value| == 1 && old(fileTransferOngoing)) ==> LoopIdle() && calls == []
      ensures pendingUpdates == old(pendingUpdates) + (if !error && value.Some? then Dispatch(value.value, decode) else [])
    {
      calls := [];
      if !error && value.Some? {
        var data := value.value;
        if |data| == 1 && fileTransferOngoing {
          calls := Acknowledge(ready);
        }
        Enqueue(Dispatch(data, decode));
      }
    }

    /** Hands decoded records to the main queue. */
    method Enqueue(ms: seq<Message>)
      modifies this`pendingUpdates
      ensures pendingUpdates == old(pendingUpdates) + ms
      ensures unchanged(this`state, this`nextTimer, this`timer, this`connected, this`packageCounter,
                        this`fileTransferInfo, this`fileTransferOngoing, this`pendingTransferStarts, this`dataLength,
                        this`transferFile, this`sentChunks, this`dataBuffer, this`chunkSize, this`fileEmpty,
                        this`OTAtransfer, this`transferProgress)
    {
      pendingUpdates := pendingUpdates + ms;
    }

    /** The acknowledgement of a window: the counter restarts and writing resumes. */
    method Acknowledge(ready: iset<nat>) returns (calls: seq<Command>)
      requires Valid() && fileTransferOngoing && Target().Some?
      modifies this`chunkSize, this`dataBuffer, this`packageCounter, this`fileTransferOngoing, this`fileEmpty,
               this`OTAtransfer, this`timer, this`nextTimer, this`transferProgress, this`sentChunks
      ensures Evolves() && LoopRan(old(Target()).value, ready, 0, true, calls)
    {
      packageCounter := 0;
      calls := WriteDataToPeripheral(Target().value, ready);
    }

    /**
     * A decoded record other than m08 was stored: m02, m03, m04 and m14
     * replace their part of the status object, and m09 stores its result
     * code, sets `transferSuccessful` exactly for code 0 and reports the
     * cause.
     */
    twostate predicate Stored(m: Message)
      reads this`statusStatic, this`downloading, this`playing, this`parameter, this`fileTransferInfo,
            this`transferSuccessful, this`transferReport
    {
      statusStatic == (if m.StatusStatic? then Some(m) else old(statusStatic)) &&
      downloading == (if m.StatusSeldom? then m.downloading else old(downloading)) &&
      playing == (if m.StatusFrequent? then m.playing else old(playing)) &&
      parameter == (if m.Parameter? then Some(m) else old(parameter)) &&
      fileTransferInfo == (if m.TransferReply? then old(fileTransferInfo).(transferResult := m.transferResult)
                           else old(fileTransferInfo)) &&
      transferSuccessful == (if m.TransferReply? then m.transferResult == 0 else old(transferSuccessful)) &&
      transferReport == (if m.TransferReply? then Some(ClassifyTransferResult(m.transferResult))
                         else old(transferReport))
    }

    /** The main-queue block of a decoded record other than m08. */
    method StoreStatus(m: Message)
      requires !m.AnyFileStatus?
      modifies this`statusStatic, this`downloading, this`playing, this`parameter, this`fileTransferInfo,
               this`transferSuccessful, this`transferReport
      ensures Stored(m)
      ensures unchanged(this`state, this`nextTimer, this`timer, this`connected, this`packageCounter,
                        this`fileTransferOngoing, this`pendingTransferStarts, this`dataLength, this`transferFile,
                        this`sentChunks, this`dataBuffer, this`silentTransfer, this`OTAtransfer, this`fileEmpty,
                        this`anyFileOk, this`fileBufferForSending)
    {
      match m
      case StatusStatic =>
        statusStatic := Some(m);
      case StatusSeldom(d) =>
        downloading := d;
      case StatusFrequent(pl, _, _) =>
        playing := pl;
      case TransferReply(code) =>
        fileTransferInfo := fileTransferInfo.(transferResult := code);
        transferSuccessful := false;
        var report := ClassifyTransferResult(code);
        if report.UploadOk? {
          transferSuccessful := true;
        }
        transferReport := Some(report);
      case Parameter(_, _) =>
        parameter := Some(m);
    }

    /** The main-queue block of an m08 answer: the answer is stored and the next queued file is sent. */
    method FileStatusArrived(ok: bool, crc: int, load: Option<seq<Byte>>, maxWriteLength: int) returns (calls: seq<Command>)
      requires Valid() && maxWriteLength > 3
      modifies this`anyFileOk, this`fileBufferForSending, this`silentTransfer, this`OTAtransfer, this`dataBuffer,
               this`fileEmpty, this`dataLength, this`fileTransferInfo, this`fileTransferOngoing,
               this`packageCounter, this`pendingTransferStarts, this`transferFile, this`sentChunks
      ensures Evolves() && Handled(AnyFileStatus(ok, crc), load, maxWriteLength, calls)
    {
      anyFileOk := ok;
      calls := SendFileFromBuffer(load, maxWriteLength);
    }

    /**
     * The main-queue block of the decoded record `m` ran and made the calls
     * `calls`: an m08 answer is stored and the next queued file is sent; any
     * other record is stored and the upload is left alone.
     */
    twostate predicate Handled(m: Message, load: Option<seq<Byte>>, maxWriteLength: int, calls: seq<Command>)
      reads this`statusStatic, this`downloading, this`playing, this`anyFileOk, this`transferSuccessful,
            this`transferReport, this`parameter, this`fileBufferForSending, this`silentTransfer, this`OTAtransfer,
            this`dataBuffer, this`fileEmpty, this`dataLength, this`fileTransferInfo, this`fileTransferOngoing,
            this`packageCounter, this`pendingTransferStarts, this`transferFile, this`sentChunks,
            this`writeCharacteristic, this`state
    {
      if m.AnyFileStatus? then
        anyFileOk == m.ok && SentFromBuffer(load, maxWriteLength, calls)
      else
        Stored(m) && UploadIdle() && anyFileOk == old(anyFileOk) &&
        fileBufferForSending == old(fileBufferForSending) && calls == []
    }

    /** The main-queue block of one decoded record. */
    method Handle(m: Message, load: Option<seq<Byte>>, maxWriteLength: int) returns (calls: seq<Command>)
      requires Valid() && maxWriteLength > 3
      modifies this`statusStatic, this`downloading, this`playing, this`anyFileOk,
               this`transferSuccessful, this`transferReport, this`parameter,
               this`fileBufferForSending, this`silentTransfer, this`OTAtransfer, this`dataBuffer, this`fileEmpty,
               this`dataLength, this`fileTransferInfo, this`fileTransferOngoing, this`packageCounter,
               this`pendingTransferStarts, this`transferFile, this`sentChunks
      ensures Evolves() && Handled(m, load, maxWriteLength, calls)
    {
      if m.AnyFileStatus? {
        calls := FileStatusArrived(m.ok, m.crc, load, maxWriteLength);
      } else {
        calls := StatusArrived(m, load, maxWriteLength);
      }
    }

    /** The main-queue block of a decoded record other than m08: the record is stored. */
    method StatusArrived(m: Message, ghost load: Option<seq<Byte>>, ghost maxWriteLength: int) returns (calls: seq<Command>)
      requires Valid() && !m.AnyFileStatus?
      modifies this`statusStatic, this`downloading, this`playing, this`parameter, this`fileTransferInfo,
               this`transferSuccessful, this`transferReport
      ensures Evolves() && Handled(m, load, maxWriteLength, calls)
    {
      StoreStatus(m);
      calls := [];
    }

    /** Runs the main-queue block of the oldest decoded notification. */
    method MainQueueStep(load: Option<seq<Byte>>, maxWriteLength: int) returns (calls: seq<Command>)
      requires Valid() && pendingUpdates != [] && maxWriteLength > 3
      modifies this`pendingUpdates, this`statusStatic, this`downloading, this`playing, this`anyFileOk,
               this`transferSuccessful, this`transferReport, this`parameter,
               this`fileBufferForSending, this`silentTransfer, this`OTAtransfer, this`dataBuffer, this`fileEmpty,
               this`dataLength, this`fileTransferInfo, this`fileTransferOngoing, this`packageCounter,
               this`pendingTransferStarts, this`transferFile, this`sentChunks
      ensures Evolves() && pendingUpdates == old(pendingUpdates)[1..]
      ensures Handled(old(pendingUpdates)[0], load, maxWriteLength, calls)
    {
      var m := pendingUpdates[0];
      pendingUpdates := pendingUpdates[1..];
      calls := Handle(m, load, maxWriteLength);
    }

    /*------------------------------------------------------------------
      Uploads
    ------------------------------------------------------------------*/

    /** The fields the write loop touches, other than the window's counter and the ongoing flag, are as they were. */
    twostate predicate LoopUntouched()
      reads this`chunkSize, this`dataBuffer, this`fileEmpty, this`OTAtransfer, this`timer, this`nextTimer,
            this`transferProgress, this`sentChunks
    {
      chunkSize == old(chunkSize) && dataBuffer == old(dataBuffer) && fileEmpty == old(fileEmpty) &&
      OTAtransfer == old(OTAtransfer) && timer == old(timer) && nextTimer == old(nextTimer) &&
      transferProgress == old(transferProgress) && sentChunks == old(sentChunks)
    }

    /** The fields the write loop touches are as they were. */
    twostate predicate LoopIdle()
      reads this`chunkSize, this`dataBuffer, this`packageCounter, this`fileTransferOngoing, this`fileEmpty,
            this`OTAtransfer, this`timer, this`nextTimer, this`transferProgress, this`sentChunks
    {
      LoopUntouched() && packageCounter == old(packageCounter) && fileTransferOngoing == old(fileTransferOngoing)
    }

    /**
     * `writeDataToPeripheral(characteristic:)` ran, with the package counter
     * at `counter0` and the ongoing flag at `ongoing0`, and made the calls
     * `calls`: with no peripheral nothing happens; otherwise the fields are
     * those `WriteLoop` computes, every chunk is one write without response,
     * and every iteration re-arms the watchdog (the last one, which finds the
     * buffer empty, stops it).
     */
    twostate predicate LoopRan(characteristic: Characteristic, ready: iset<nat>, counter0: int, ongoing0: bool,
                               calls: seq<Command>)
      reads this`chunkSize, this`dataBuffer, this`packageCounter, this`fileTransferOngoing, this`fileEmpty,
            this`OTAtransfer, this`timer, this`nextTimer, this`transferProgress, this`sentChunks
    {
      var p := old(state).CurrentPeripheral();
      if p.None? then
        LoopUntouched() && packageCounter == counter0 && fileTransferOngoing == ongoing0 && calls == []
      else
        WindowWritten(p.value, characteristic, ready, counter0, ongoing0, calls)
    }

    /** The loop of `writeDataToPeripheral` ran for the current peripheral `p`. */
    twostate predicate WindowWritten(p: Peripheral, characteristic: Characteristic, ready: iset<nat>, counter0: int,
                                     ongoing0: bool, calls: seq<Command>)
      reads this`chunkSize, this`dataBuffer, this`packageCounter, this`fileTransferOngoing, this`fileEmpty,
            this`OTAtransfer, this`timer, this`nextTimer, this`transferProgress, this`sentChunks
    {
      var info := old(fileTransferInfo);
      (ongoing0 ==> info.chunkSize >= 1) &&
      var r := WriteLoop(old(dataBuffer), info.chunkSize, counter0, info.bufferLoopTimes, ongoing0, ready, 0);
      chunkSize == info.chunkSize && dataBuffer == r.rest && packageCounter == r.counter &&
      fileTransferOngoing == (ongoing0 && !r.emptied) && fileEmpty == (old(fileEmpty) || r.emptied) &&
      OTAtransfer == (old(OTAtransfer) && !r.emptied) &&
      nextTimer == old(nextTimer) + r.iterations &&
      timer == Watchdog(old(timer), old(nextTimer), r) &&
      transferProgress == LoopProgress(old(transferProgress), old(dataLength), r) &&
      calls == ChunkWrites(p.id, characteristic.uuid, r.chunks) &&
      sentChunks == old(sentChunks) + r.chunks
    }

    /**
     * `writeDataToPeripheral(characteristic:)`: with a current peripheral,
     * takes the chunk size from the transfer information and runs the loop
     * on the upload's variables; what the loop empties ends the upload.
     */
    method WriteDataToPeripheral(characteristic: Characteristic, ready: iset<nat>) returns (calls: seq<Command>)
      requires Valid()
      modifies this`chunkSize, this`dataBuffer, this`packageCounter, this`fileTransferOngoing, this`fileEmpty,
               this`OTAtransfer, this`timer, this`nextTimer, this`transferProgress, this`sentChunks
      ensures Evolves()
      ensures LoopRan(characteristic, ready, old(packageCounter), old(fileTransferOngoing), calls)
    {
      var p := state.CurrentPeripheral();
      if p.None? {
        calls := [];
        return;
      }
      calls := WriteWindow(p.value, characteristic, ready);
    }

    /** The loop of `writeDataToPeripheral` for the current peripheral `p`. */
    method WriteWindow(p: Peripheral, characteristic: Characteristic, ready: iset<nat>) returns (calls: seq<Command>)
      requires Valid()
      modifies this`chunkSize, this`dataBuffer, this`packageCounter, this`fileTransferOngoing, this`fileEmpty,
               this`OTAtransfer, this`timer, this`nextTimer, this`transferProgress, this`sentChunks
      ensures Evolves()
      ensures WindowWritten(p, characteristic, ready, old(packageCounter), old(fileTransferOngoing), calls)
    {
      var info := fileTransferInfo;
      var buffer, counter, ongoing, emptied, watchdog, next, progress, chunks;
      buffer, counter, ongoing, emptied, watchdog, next, progress, calls, chunks :=
        WriteChunks(p.id, characteristic, dataBuffer, info.chunkSize, packageCounter, info.bufferLoopTimes,
                    fileTransferOngoing, ready, timer, nextTimer, transferProgress, dataLength);
      UploadInvLoop(transferFile, sentChunks, dataBuffer, info.chunkSize, packageCounter, info.bufferLoopTimes,
                    fileTransferOngoing, ready);
      StoreWindow(info.chunkSize, buffer, counter, ongoing, emptied);
      StoreProgress(watchdog, next, progress, sentChunks + chunks);
    }

    /** Stores what the write loop left of the buffer and the window. */
    method StoreWindow(size: int, buffer: seq<Byte>, counter: int, ongoing: bool, emptied: bool)
      modifies this`chunkSize, this`dataBuffer, this`packageCounter, this`fileTransferOngoing, this`fileEmpty,
               this`OTAtransfer
      ensures chunkSize == size && dataBuffer == buffer && packageCounter == counter &&
              fileTransferOngoing == ongoing && fileEmpty == (old(fileEmpty) || emptied) &&
              OTAtransfer == (old(OTAtransfer) && !emptied)
      ensures unchanged(this`state, this`connected, this`fileTransferInfo, this`pendingTransferStarts, this`dataLength,
                        this`transferFile, this`timer, this`nextTimer, this`transferProgress, this`sentChunks)
    {
      chunkSize, dataBuffer, packageCounter, fileTransferOngoing := size, buffer, counter, ongoing;
      if emptied {
        fileEmpty, OTAtransfer := true, false;
      }
    }

    /** Stores the watchdog, the progress and the chunks written, as the write loop left them. */
    method StoreProgress(watchdog: Option<TimerId>, next: TimerId, progress: Option<real>, ghost sent: seq<seq<Byte>>)
      modifies this`timer, this`nextTimer, this`transferProgress, this`sentChunks
      ensures timer == watchdog && nextTimer == next && transferProgress == progress && sentChunks == sent
      ensures unchanged(this`state, this`connected, this`fileTransferInfo, this`pendingTransferStarts, this`dataLength,
                        this`transferFile, this`chunkSize, this`dataBuffer, this`packageCounter,
                        this`fileTransferOngoing, this`fileEmpty, this`OTAtransfer)
    {
      timer, nextTimer, transferProgress, sentChunks := watchdog, next, progress, sent;
    }

    /** `peripheralIsReady(toSendWriteWithoutResponse:)`: resumes writing while the upload runs. */
    method PeripheralIsReady(ready: iset<nat>) returns (calls: seq<Command>)
      requires Valid() && (fileTransferOngoing ==> Target().Some?)
      modifies this`chunkSize, this`dataBuffer, this`packageCounter, this`fileTransferOngoing, this`fileEmpty,
               this`OTAtransfer, this`timer, this`nextTimer, this`transferProgress, this`sentChunks
      ensures Evolves()
      ensures old(fileTransferOngoing) && old(packageCounter) <= old(fileTransferInfo).bufferLoopTimes ==>
                LoopRan(old(Target()).value, ready, old(packageCounter), true, calls)
      ensures !(old(fileTransferOngoing) && old(packageCounter) <= old(fileTransferInfo).bufferLoopTimes) ==>
                LoopIdle() && calls == []
    {
      calls := [];
      if fileTransferOngoing && packageCounter <= fileTransferInfo.bufferLoopTimes {
        calls := WriteDataToPeripheral(Target().value, ready);
      }
    }

    /** The fields `sendFile` touches, other than the transfer information, are as they were. */
    twostate predicate UploadIdle()
      reads this`silentTransfer, this`OTAtransfer, this`dataBuffer, this`fileEmpty, this`dataLength,
            this`fileTransferOngoing, this`packageCounter, this`pendingTransferStarts, this`transferFile,
            this`sentChunks
    {
      silentTransfer == old(silentTransfer) && OTAtransfer == old(OTAtransfer) && dataBuffer == old(dataBuffer) &&
      fileEmpty == old(fileEmpty) && dataLength == old(dataLength) &&
      fileTransferOngoing == old(fileTransferOngoing) && packageCounter == old(packageCounter) &&
      pendingTransferStarts == old(pendingTransferStarts) && transferFile == old(transferFile) &&
      sentChunks == old(sentChunks)
    }

    /** The fields `sendFile` touches are as they were. */
    twostate predicate FileIdle()
      reads this`silentTransfer, this`OTAtransfer, this`dataBuffer, this`fileEmpty, this`dataLength,
            this`fileTransferOngoing, this`packageCounter, this`pendingTransferStarts, this`transferFile,
            this`sentChunks, this`fileTransferInfo
    {
      UploadIdle() && fileTransferInfo == old(fileTransferInfo)
    }

    /**
     * `sendFile` ran for `item`, with `load` the result of reading the file,
     * and made the calls `calls`: it is refused while projecting; a file that
     * cannot be read changes nothing else; a read file replaces the buffer
     * (an upload in progress included); with a peripheral, the transfer
     * information is announced and the start of the upload is queued.
     */
    twostate predicate SentFile(item: FileItem, load: Option<seq<Byte>>, maxWriteLength: int, calls: seq<Command>)
      reads this`silentTransfer, this`OTAtransfer, this`dataBuffer, this`fileEmpty, this`dataLength,
            this`fileTransferOngoing, this`packageCounter, this`pendingTransferStarts, this`transferFile,
            this`sentChunks, this`fileTransferInfo, this`playing, this`writeCharacteristic, this`state
    {
      var go := !old(playing) && load.Some?;
      var announce := go && old(state).CurrentPeripheral().Some?;
      silentTransfer == item.silent &&
      OTAtransfer == (if go then item.fileType == ".bin" else old(OTAtransfer)) &&
      dataBuffer == (if go then load.value else old(dataBuffer)) &&
      transferFile == (if go then load.value else old(transferFile)) &&
      sentChunks == (if go then [] else old(sentChunks)) &&
      fileEmpty == (if go then false else old(fileEmpty)) &&
      dataLength == (if go then |load.value| else old(dataLength)) &&
      fileTransferInfo == (if announce then Announcement(item, |load.value|, maxWriteLength)
                           else old(fileTransferInfo)) &&
      fileTransferOngoing == (old(fileTransferOngoing) && (!announce || old(writeCharacteristic).Some?)) &&
      packageCounter == (if announce then 0 else old(packageCounter)) &&
      pendingTransferStarts == old(pendingTransferStarts) + (if announce then 1 else 0) &&
      calls == (if announce then JsonWrite(TransferInfo(fileTransferInfo)) else [])
    }

    /**
     * `sendFile(folder:filename:fileEnding:silent:completion:)`: `load` is
     * the file's content (read from the bundle for ".bin", which makes it a
     * firmware update, else from the documents folder), None when it cannot
     * be read; `maxWriteLength` is the peripheral's maximum write without
     * response.
     */
    method SendFile(folder: string, filename: string, fileEnding: string, silent: bool,
                    load: Option<seq<Byte>>, maxWriteLength: int) returns (calls: seq<Command>)
      requires Valid() && maxWriteLength > 3
      modifies this`silentTransfer, this`OTAtransfer, this`dataBuffer, this`fileEmpty, this`dataLength,
               this`fileTransferInfo, this`fileTransferOngoing, this`packageCounter, this`pendingTransferStarts,
               this`transferFile, this`sentChunks
      ensures Evolves() && SentFile(FileItem(folder, filename, fileEnding, silent), load, maxWriteLength, calls)
    {
      SetSilent(silent);
      calls := [];
      if !playing && load.Some? {
        calls := InstallFile(FileItem(folder, filename, fileEnding, silent), load.value, maxWriteLength);
      }
    }

    /** The first statement of `sendFile`. */
    method SetSilent(silent: bool)
      modifies this`silentTransfer
      ensures silentTransfer == silent
      ensures unchanged(this`OTAtransfer, this`dataBuffer, this`fileEmpty, this`dataLength, this`fileTransferInfo,
                        this`fileTransferOngoing, this`packageCounter, this`pendingTransferStarts, this`transferFile,
                        this`sentChunks, this`playing, this`writeCharacteristic, this`state, this`nextTimer,
                        this`timer, this`connected)
    {
      silentTransfer := silent;
    }

    /** The part of `sendFile` past its guards: the read file `content` is installed and, with a peripheral, announced. */
    method InstallFile(item: FileItem, content: seq<Byte>, maxWriteLength: int) returns (calls: seq<Command>)
      requires Valid() && maxWriteLength > 3 && !playing && silentTransfer == item.silent
      modifies this`OTAtransfer, this`dataBuffer, this`fileEmpty, this`dataLength,
               this`fileTransferInfo, this`fileTransferOngoing, this`packageCounter, this`pendingTransferStarts,
               this`transferFile, this`sentChunks
      ensures Evolves() && SentFile(item, Some(content), maxWriteLength, calls)
    {
      LoadFile(content, item.fileType == ".bin");
      calls := [];
      if state.CurrentPeripheral().Some? {
        calls := AnnounceFile(item, maxWriteLength);
      }
    }

    /** The part of `sendFile` that installs a read file as the upload buffer. */
    method LoadFile(content: seq<Byte>, ota: bool)
      modifies this`OTAtransfer, this`dataBuffer, this`transferFile, this`sentChunks, this`fileEmpty, this`dataLength
      ensures OTAtransfer == ota && dataBuffer == content && transferFile == content && sentChunks == [] &&
              !fileEmpty && dataLength == |content|
      ensures ProgressValid()
    {
      OTAtransfer, dataBuffer, fileEmpty, dataLength := ota, content, false, |content|;
      transferFile, sentChunks := content, [];
      UploadInvStart(content, fileTransferInfo.chunkSize);
    }

    /**
     * The part of `sendFile` that announces the upload of `item`: the
     * transfer information is set and sent, the window restarts and the
     * start of the upload is queued.
     */
    method AnnounceFile(item: FileItem, maxWriteLength: int) returns (calls: seq<Command>)
      requires WindowValid() && maxWriteLength > 3 && !playing
      requires dataBuffer == transferFile && sentChunks == [] && dataLength == |transferFile|
      modifies this`fileTransferInfo, this`fileTransferOngoing, this`packageCounter, this`pendingTransferStarts
      ensures fileTransferInfo == Announcement(item, dataLength, maxWriteLength)
      ensures fileTransferOngoing == (old(fileTransferOngoing) && writeCharacteristic.Some?)
      ensures packageCounter == 0 && pendingTransferStarts == old(pendingTransferStarts) + 1
      ensures calls == JsonWrite(TransferInfo(fileTransferInfo))
      ensures WindowValid() && ProgressValid()
    {
      fileTransferInfo := Announcement(item, dataLength, maxWriteLength);
      calls := SendJsonBLE(TransferInfo(fileTransferInfo));
      packageCounter, pendingTransferStarts := 0, pendingTransferStarts + 1;
      UploadInvStart(transferFile, fileTransferInfo.chunkSize);
    }

    /** The block `sendFile` queues 0.3 s ahead: marks the upload as running and writes the first window. */
    method TransferStartStep(ready: iset<nat>) returns (calls: seq<Command>)
      requires Valid() && pendingTransferStarts > 0 && Target().Some?
      modifies this`pendingTransferStarts, this`fileTransferInfo, this`transferSuccessful,
               this`chunkSize, this`dataBuffer, this`packageCounter, this`fileTransferOngoing, this`fileEmpty,
               this`OTAtransfer, this`timer, this`nextTimer, this`transferProgress, this`sentChunks
      ensures Evolves() && pendingTransferStarts == old(pendingTransferStarts) - 1
      ensures fileTransferInfo == old(fileTransferInfo).(transferResult := 99) && !transferSuccessful
      ensures LoopRan(old(Target()).value, ready, old(packageCounter), true, calls)
    {
      BeginTransfer();
      calls := WriteDataToPeripheral(Target().value, ready);
    }

    /** The first statements of the queued block: result pending, not successful, upload running. */
    method BeginTransfer()
      requires Valid() && pendingTransferStarts > 0
      modifies this`pendingTransferStarts, this`fileTransferInfo, this`transferSuccessful, this`fileTransferOngoing
      ensures Valid() && pendingTransferStarts == old(pendingTransferStarts) - 1
      ensures fileTransferInfo == old(fileTransferInfo).(transferResult := 99) && !transferSuccessful &&
              fileTransferOngoing
      ensures LoopUntouched() && state == old(state) && dataLength == old(dataLength) &&
              packageCounter == old(packageCounter) && Target() == old(Target())
    {
      pendingTransferStarts := pendingTransferStarts - 1;
      fileTransferInfo := fileTransferInfo.(transferResult := 99);
      transferSuccessful, fileTransferOngoing := false, true;
    }

    /** `addFileToSendBuffer`: appends at the end of the queue. */
    method AddFileToSendBuffer(folder: string, filename: string, fileEnding: string, silent: bool)
      modifies this`fileBufferForSending
      ensures fileBufferForSending == old(fileBufferForSending) + [FileItem(folder, filename, fileEnding, silent)]
    {
      fileBufferForSending := fileBufferForSending + [FileItem(folder, filename, fileEnding, silent)];
    }

    /** `sendFileFromBuffer` ran with `load` the content of the head item's file and made the calls `calls`. */
    twostate predicate SentFromBuffer(load: Option<seq<Byte>>, maxWriteLength: int, calls: seq<Command>)
      reads this`silentTransfer, this`OTAtransfer, this`dataBuffer, this`fileEmpty, this`dataLength,
            this`fileTransferOngoing, this`packageCounter, this`pendingTransferStarts, this`transferFile,
            this`sentChunks, this`fileTransferInfo, this`playing, this`writeCharacteristic, this`state,
            this`fileBufferForSending
    {
      if old(fileTransferOngoing) || old(fileBufferForSending) == [] then
        FileIdle() && fileBufferForSending == old(fileBufferForSending) && calls == []
      else
        SentFile(old(fileBufferForSending)[0], load, maxWriteLength, calls) &&
        fileBufferForSending == old(fileBufferForSending)[1..]
    }

    /**
     * `sendFileFromBuffer()`: nothing while an upload runs or the queue is
     * empty; otherwise the head is sent and exactly it is removed.
     */
    method SendFileFromBuffer(load: Option<seq<Byte>>, maxWriteLength: int) returns (calls: seq<Command>)
      requires Valid() && maxWriteLength > 3
      modifies this`fileBufferForSending, this`silentTransfer, this`OTAtransfer, this`dataBuffer, this`fileEmpty,
               this`dataLength, this`fileTransferInfo, this`fileTransferOngoing, this`packageCounter,
               this`pendingTransferStarts, this`transferFile, this`sentChunks
      ensures Evolves() && SentFromBuffer(load, maxWriteLength, calls)
    {
      calls := [];
      if fileTransferOngoing { return; }
      if fileBufferForSending == [] { return; }
      var item := fileBufferForSending[0];
      calls := SendFile(item.folder, item.name, item.fileType, item.silent, load, maxWriteLength);
      fileBufferForSending := fileBufferForSending[1..];
    }
  }
}
