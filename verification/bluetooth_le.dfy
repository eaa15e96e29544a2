/**
 * The cut-down connection manager of BluetoothLE.swift: the same connection
 * state machine as BLE_Object, without the JSON protocol, and a firmware
 * upload that writes the whole file to the OTA characteristic in windows of
 * `chunkCount` chunks, each window released by a one-byte acknowledgement.
 *
 * As in BLE_Object, every method returns the adapter calls it makes, in
 * order, as `calls`, and the answers it reads from the adapter (power state,
 * known peripherals, the maximum write length, `canSendWriteWithoutResponse`)
 * and the file it loads are parameters.
 */
module BluetoothLe {
  import opened Wrappers
  import opened Gatt
  import opened Adapter
  import opened ConnectionState
  import opened Reconnect
  import opened ChunkWriter

  /**
   * The peripheral power-on reconnects to: the remembered identifier,
   * resolved by the adapter's known peripherals. There is no fallback.
   */
  function PowerOnTarget(persistedId: Option<Uuid>, registry: seq<Peripheral>): (r: Option<Peripheral>)
    ensures r.Some? <==> persistedId.Some? && exists p :: p in registry && p.id == persistedId.value
    ensures r.Some? ==> r.value in registry && r.value.id == persistedId.value
  {
    if persistedId.Some? then Retrieve(registry, persistedId.value) else None
  }

  /** The notification switch for one discovered characteristic: status on, OTA off. */
  function NotifyOne(id: Uuid, c: Characteristic): seq<Command>
  {
    if c.uuid == StatusCharacteristicId then [SetNotify(id, c.uuid, true)]
    else if c.uuid == OtaCharacteristicId then [SetNotify(id, c.uuid, false)]
    else []
  }

  /** The notification switches for the characteristics `cs`, in order. */
  function NotifyCommands(id: Uuid, cs: seq<Characteristic>): seq<Command>
    decreases |cs|
  {
    if cs == [] then [] else NotifyCommands(id, cs[..|cs| - 1]) + NotifyOne(id, cs[|cs| - 1])
  }

  lemma {:induction false} NotifyCommandsStep(id: Uuid, cs: seq<Characteristic>, i: nat)
    requires i < |cs|
    ensures NotifyCommands(id, cs[..i + 1]) == NotifyCommands(id, cs[..i]) + NotifyOne(id, cs[i])
  {
    assert cs[..i + 1][..i] == cs[..i];
  }

  /** Each switch is for the status or the OTA characteristic, and only status is switched on. */
  lemma {:induction false} NotifyCommandsRoles(id: Uuid, cs: seq<Characteristic>, k: nat)
    requires k < |NotifyCommands(id, cs)|
    ensures NotifyCommands(id, cs)[k].SetNotify? && NotifyCommands(id, cs)[k].peripheral == id
    ensures var c := NotifyCommands(id, cs)[k];
            c.enabled <==> c.characteristic == StatusCharacteristicId
    ensures NotifyCommands(id, cs)[k].characteristic in {StatusCharacteristicId, OtaCharacteristicId}
    decreases |cs|
  {
    var prefix := NotifyCommands(id, cs[..|cs| - 1]);
    if k < |prefix| {
      NotifyCommandsRoles(id, cs[..|cs| - 1], k);
    }
  }

  /**
   * The loop of `didDiscoverCharacteristicsFor` on copies of the two role
   * variables: the status characteristic is stored and switched to notify,
   * the OTA characteristic is stored and switched off.
   */
  method AssignRoles(id: Uuid, cs: seq<Characteristic>, status0: Option<Characteristic>, ota0: Option<Characteristic>)
    returns (status: Option<Characteristic>, ota: Option<Characteristic>, calls: seq<Command>)
    ensures status == Assigned(status0, cs, StatusCharacteristicId)
    ensures ota == Assigned(ota0, cs, OtaCharacteristicId)
    ensures calls == NotifyCommands(id, cs)
  {
    status, ota, calls := status0, ota0, [];
    for i := 0 to |cs|
      invariant status == Assigned(status0, cs[..i], StatusCharacteristicId)
      invariant ota == Assigned(ota0, cs[..i], OtaCharacteristicId)
      invariant calls == NotifyCommands(id, cs[..i])
    {
      var c := cs[i];
      AssignedStep(status0, cs, i, StatusCharacteristicId);
      AssignedStep(ota0, cs, i, OtaCharacteristicId);
      NotifyCommandsStep(id, cs, i);
      if c.uuid == StatusCharacteristicId {
        status := Some(c);
        calls := calls + [SetNotify(id, c.uuid, true)];
      } else if c.uuid == OtaCharacteristicId {
        ota := Some(c);
        calls := calls + [SetNotify(id, c.uuid, false)];
      }
    }
    assert cs[..|cs|] == cs;
  }

  /**
   * The loop of `writeDataToPeriheral(characteristic:)` on the peripheral
   * `id`, run on copies of the variables it changes: while the upload runs,
   * the link takes a write without response (`k in ready` for the k-th
   * check) and fewer than `window` chunks went out since the last
   * acknowledgement, the first `min(chunkSize, remaining)` bytes are written
   * and removed; the iteration that finds the buffer empty ends the upload.
   * Every iteration recomputes the progress and adds `chunkSize` to the
   * sent-byte count. The results are exactly those of `WriteLoop`.
   */
  method WriteChunks(id: Uuid, characteristic: Characteristic, buffer0: seq<Byte>, chunkSize: int,
                     counter0: int, window: int, ongoing0: bool, ready: iset<nat>,
                     progress0: Option<real>, dataLength: nat, sent0: int)
    returns (buffer: seq<Byte>, counter: int, ongoing: bool, progress: Option<real>, sent: int,
             writes: seq<Command>, chunks: seq<seq<Byte>>)
    requires ongoing0 ==> chunkSize >= 1
    ensures var r := WriteLoop(buffer0, chunkSize, counter0, window, ongoing0, ready, 0);
            buffer == r.rest && counter == r.counter && ongoing == (ongoing0 && !r.emptied) &&
            chunks == r.chunks && writes == ChunkWrites(id, characteristic.uuid, r.chunks) &&
            progress == LoopProgress(progress0, dataLength, r) &&
            sent == sent0 + r.iterations * chunkSize
  {
    buffer, counter, ongoing, progress, sent := buffer0, counter0, ongoing0, progress0, sent0;
    writes, chunks := [], [];
    var emptied := false;
    ghost var R := WriteLoop(buffer0, chunkSize, counter0, window, ongoing0, ready, 0);
    ResumesStart(R);
    var k: nat := 0;
    while ongoing && k in ready && counter < window
      invariant ongoing ==> chunkSize >= 1
      invariant Resumes(R, chunks, emptied, k, WriteLoop(buffer, chunkSize, counter, window, ongoing, ready, k))
      invariant ongoing == (ongoing0 && !emptied)
      invariant sent == sent0 + k * chunkSize
      invariant progress == LoopProgress(progress0, dataLength, LoopResult(chunks, buffer, counter, emptied, k))
      invariant writes == ChunkWrites(id, characteristic.uuid, chunks)
      decreases (if ongoing then 1 else 0), window - counter
    {
      if buffer != [] {
        var n := Min(chunkSize, |buffer|);
        var subData := buffer[..n];
        ResumesWrite(R, chunks, emptied, k, buffer, chunkSize, counter, window, ready);
        ChunkWritesAppend(id, characteristic.uuid, chunks, subData);
        writes := writes + [WriteBytes(id, characteristic.uuid, subData, false)];
        counter := counter + 1;
        chunks := chunks + [subData];
        buffer := buffer[n..];
      } else {
        ResumesEmpty(R, chunks, emptied, k, chunkSize, counter, window, ready);
        ongoing, emptied := false, true;
      }
      progress := Progress(|buffer|, dataLength);
      MulSucc(k, chunkSize);
      sent := sent + chunkSize;
      k := k + 1;
    }
    ResumesEnd(R, chunks, emptied, k, buffer, chunkSize, counter, window, ongoing, ready);
  }

  lemma MulSucc(k: int, c: int)
    ensures (k + 1) * c == k * c + c
  {
  }

  /**
   * `sentBytes` grows by the chunk size on every iteration: never less than
   * the bytes the run wrote, and strictly more once the iteration that
   * found the buffer empty, which writes nothing, ran.
   */
  lemma SentBytesOvercounts(buffer: seq<Byte>, chunkSize: int, counter: int, window: int,
                            ongoing: bool, ready: iset<nat>)
    requires ongoing ==> chunkSize >= 1
    ensures var r := WriteLoop(buffer, chunkSize, counter, window, ongoing, ready, 0);
            |Concat(r.chunks)| <= r.iterations * chunkSize &&
            (r.emptied ==> |Concat(r.chunks)| < r.iterations * chunkSize)
  {
    if ongoing {
      var r := WriteLoop(buffer, chunkSize, counter, window, true, ready, 0);
      WriteLoopChunkSizes(buffer, chunkSize, counter, window, ready, 0);
      ConcatLengthBound(r.chunks, chunkSize);
      if r.emptied {
        MulSucc(|r.chunks|, chunkSize);
      }
    }
  }

  /** The connection half of the manager's invariant, on the values of its fields. */
  predicate ConnectionInv(state: StateBLE, nextTimer: TimerId, connected: bool)
  {
    CountdownsBelow(state, nextTimer) && (state.PoweredOff? ==> !connected)
  }

  class BLEConnection {
    var state: StateBLE
    /** The identifier the next armed countdown gets. */
    var nextTimer: TimerId
    /** The identifier kept in `UserDefaults`. */
    var persistedId: Option<Uuid>

    var statusCharacteristic: Option<Characteristic>
    var otaCharacteristic: Option<Characteristic>

    var connected: bool
    /** `transferProgress` in percent; None is NaN. */
    var transferProgress: Option<real>
    /** The window: chunks written per acknowledgement. */
    var chunkCount: int

    var dataToSend: seq<Byte>
    var dataBuffer: seq<Byte>
    var chunkSize: int
    var dataLength: nat
    var transferOngoing: bool
    var sentBytes: int
    var packageCounter: int
    var firstAcknowledgeFromESP32: bool

    /** The file of the current upload and the chunks of it written so far. */
    ghost var transferFile: seq<Byte>
    ghost var sentChunks: seq<seq<Byte>>

    /** The manager's invariant. */
    ghost predicate Valid()
      reads this`state, this`nextTimer, this`connected, this`chunkCount, this`packageCounter,
            this`dataLength, this`transferFile, this`sentChunks, this`dataBuffer
    {
      ConnectionValid() && WindowValid() && ProgressValid()
    }

    /** Every armed countdown got its id before `nextTimer`; the manager is never connected while powered off. */
    ghost predicate ConnectionValid()
      reads this`state, this`nextTimer, this`connected
    {
      ConnectionInv(state, nextTimer, connected)
    }

    /** The window is one of the sizes the stepper offers, and the counter never goes negative. */
    ghost predicate WindowValid()
      reads this`chunkCount, this`packageCounter
    {
      1 <= chunkCount <= 4 && 0 <= packageCounter
    }

    /** The bytes written so far, followed by the buffer left, are the file. */
    ghost predicate ProgressValid()
      reads this`dataLength, this`transferFile, this`sentChunks, this`dataBuffer
    {
      dataLength == |transferFile| && Concat(sentChunks) + dataBuffer == transferFile
    }

    /** A step keeps the invariant, hands out countdown ids only upwards and releases replaced countdowns. */
    twostate predicate Evolves()
      reads this`state, this`nextTimer, this`connected, this`chunkCount, this`packageCounter,
            this`dataLength, this`transferFile, this`sentChunks, this`dataBuffer
    {
      Valid() && old(nextTimer) <= nextTimer && ReleasesCountdown(old(state), state, old(nextTimer))
    }

    constructor (persistedId: Option<Uuid>)
      ensures Valid()
      ensures this.persistedId == persistedId && state == StateBLE.PoweredOff && !connected
      ensures transferOngoing && chunkCount == 2 && packageCounter == 0 && transferProgress == Some(0.0)
      ensures dataBuffer == [] && dataLength == 0 && sentBytes == 0
    {
      this.persistedId := persistedId;
      state, nextTimer := StateBLE.PoweredOff, 0;
      statusCharacteristic, otaCharacteristic := None, None;
      connected, transferProgress, chunkCount := false, Some(0.0), 2;
      dataToSend, dataBuffer, chunkSize, dataLength := [], [], 0, 0;
      transferOngoing, sentBytes, packageCounter, firstAcknowledgeFromESP32 := true, 0, 0, false;
      transferFile, sentChunks := [], [];
    }

    /** The stepper of the window, enabled only while no upload runs. */
    method SetChunkCount(n: int)
      requires Valid() && 1 <= n <= 4 && !transferOngoing
      modifies this`chunkCount
      ensures Valid() && chunkCount == n
    {
      chunkCount := n;
    }

    /*------------------------------------------------------------------
      Effects shared by several handlers
    ------------------------------------------------------------------*/

    /** `disconnect(forget:)` ran from the state at entry. */
    twostate predicate AfterDisconnect(forget: bool)
      reads this`state, this`connected, this`transferOngoing, this`persistedId
    {
      state == Disconnected && !connected && !transferOngoing &&
      persistedId == (if forget then None else old(persistedId))
    }

    /** `connect(peripheral:)` ran and made the calls `calls`. */
    twostate predicate AfterConnect(p: Peripheral, calls: seq<Command>)
      reads this`state, this`nextTimer
    {
      (old(connected) ==> state == old(state) && nextTimer == old(nextTimer) && calls == [CancelConnection(p.id)]) &&
      (!old(connected) ==> state == Connecting(p, old(nextTimer)) && nextTimer == old(nextTimer) + 1 &&
                           calls == [Command.Connect(p.id)])
    }

    /** `setConnected(peripheral:)` found the desired characteristic of `p`: the state it leaves. */
    twostate predicate BecameConnected(p: Peripheral)
      reads this`state, this`connected, this`persistedId
    {
      state == Connected(p) && connected && persistedId == Some(p.id)
    }

    /*------------------------------------------------------------------
      Connection state machine: actions
    ------------------------------------------------------------------*/

    /** `startScanning()`: scans for the desired service with a 10-second countdown, if powered on. */
    method StartScanning(managerState: ManagerState) returns (calls: seq<Command>)
      requires Valid()
      modifies this`state, this`nextTimer
      ensures Evolves()
      ensures managerState != ManagerState.PoweredOn ==>
                state == old(state) && nextTimer == old(nextTimer) && calls == []
      ensures managerState == ManagerState.PoweredOn ==>
                state == Scanning(old(nextTimer)) && nextTimer == old(nextTimer) + 1 &&
                calls == [ScanForPeripherals([MyDesiredServiceId])]
    {
      calls := [];
      if managerState != ManagerState.PoweredOn { return; }
      calls := [ScanForPeripherals([MyDesiredServiceId])];
      state, nextTimer := Scanning(nextTimer), nextTimer + 1;
    }

    /** `disconnect(forget:)`: always ends disconnected; only `forget` drops the remembered id. */
    method Disconnect(forget: bool) returns (calls: seq<Command>)
      requires Valid()
      modifies this`persistedId, this`state, this`connected, this`transferOngoing
      ensures Evolves() && AfterDisconnect(forget) && calls == CancelCurrent(old(state))
    {
      calls := CancelCurrent(state);
      if forget {
        persistedId := None;
      }
      state, connected, transferOngoing := Disconnected, false, false;
    }

    /** `connect(peripheral:)`: a connect with a 10-second countdown, or only a cancel while connected. */
    method Connect(p: Peripheral) returns (calls: seq<Command>)
      requires Valid()
      modifies this`state, this`nextTimer
      ensures Evolves() && AfterConnect(p, calls)
    {
      if connected {
        calls := [CancelConnection(p.id)];
      } else {
        calls := [Command.Connect(p.id)];
        state, nextTimer := Connecting(p, nextTimer), nextTimer + 1;
      }
    }

    /** `discoverServices(peripheral:)`: looks for the desired service with a 10-second countdown. */
    method DiscoverServices(p: Peripheral) returns (calls: seq<Command>)
      requires Valid()
      modifies this`state, this`nextTimer
      ensures Evolves()
      ensures state == DiscoveringServices(p, old(nextTimer)) && nextTimer == old(nextTimer) + 1
      ensures calls == [Command.DiscoverServices(p.id, [MyDesiredServiceId])]
    {
      calls := [Command.DiscoverServices(p.id, [MyDesiredServiceId])];
      state, nextTimer := DiscoveringServices(p, nextTimer), nextTimer + 1;
    }

    /** `discoverCharacteristics(peripheral:)`: asks the desired service for the desired characteristic. */
    method DiscoverCharacteristics(p: Peripheral) returns (calls: seq<Command>)
      requires Valid()
      modifies this`persistedId, this`state, this`connected, this`transferOngoing, this`nextTimer
      ensures Evolves()
      ensures MyDesiredService(p).None? ==>
                AfterDisconnect(false) && calls == CancelCurrent(old(state)) && nextTimer == old(nextTimer)
      ensures MyDesiredService(p).Some? ==>
                state == DiscoveringCharacteristics(p, old(nextTimer)) && nextTimer == old(nextTimer) + 1 &&
                calls == [Command.DiscoverCharacteristics(p.id, MyDesiredServiceId, Some([MyDesiredCharacteristicId]))] &&
                connected == old(connected) && transferOngoing == old(transferOngoing) &&
                persistedId == old(persistedId)
    {
      var service := MyDesiredService(p);
      if service.None? {
        calls := Disconnect(false);
        return;
      }
      calls := [Command.DiscoverCharacteristics(p.id, service.value.uuid, Some([MyDesiredCharacteristicId]))];
      state, nextTimer := DiscoveringCharacteristics(p, nextTimer), nextTimer + 1;
    }

    /**
     * `setConnected(peripheral:)`: without the desired characteristic it
     * disconnects; with it, the id is remembered, the characteristic is
     * switched to notify and the state is `connected(p)`.
     */
    method SetConnected(p: Peripheral) returns (calls: seq<Command>)
      requires Valid()
      modifies this`persistedId, this`state, this`connected, this`transferOngoing
      ensures Evolves()
      ensures MyDesiredCharacteristic(p).None? ==> AfterDisconnect(false) && calls == CancelCurrent(old(state))
      ensures MyDesiredCharacteristic(p).Some? ==>
                BecameConnected(p) && transferOngoing == old(transferOngoing) &&
                calls == [SetNotify(p.id, MyDesiredCharacteristicId, true)]
    {
      var c := MyDesiredCharacteristic(p);
      if c.None? {
        calls := Disconnect(false);
        return;
      }
      persistedId := Some(p.id);
      calls := [SetNotify(p.id, c.value.uuid, true)];
      state, connected := Connected(p), true;
    }

    /** A state's countdown `t` fired; it takes effect only while the current state owns `t`. */
    method CountdownFired(t: TimerId) returns (calls: seq<Command>)
      requires Valid()
      modifies this`persistedId, this`state, this`connected, this`transferOngoing
      ensures Evolves()
      ensures old(state).OwnedCountdown() != Some(t) ==> unchanged(this) && calls == []
      ensures old(state) == Scanning(t) ==>
                state == Disconnected && calls == [StopScan] && connected == old(connected) &&
                transferOngoing == old(transferOngoing) && persistedId == old(persistedId)
      ensures old(state).Connecting? && old(state).countdown == t ==>
                state == Disconnected && !connected && calls == [CancelConnection(old(state).p.id)] &&
                transferOngoing == old(transferOngoing) && persistedId == old(persistedId)
      ensures (old(state).DiscoveringServices? || old(state).DiscoveringCharacteristics?) && old(state).countdown == t ==>
                AfterDisconnect(false) && calls == CancelCurrent(old(state))
    {
      calls := [];
      if state.OwnedCountdown() != Some(t) { return; }
      match state
      case Scanning(_) =>
        calls := [StopScan];
        state := Disconnected;
      case Connecting(p, _) =>
        calls := [CancelConnection(p.id)];
        state, connected := Disconnected, false;
      case DiscoveringServices(_, _) =>
        calls := Disconnect(false);
      case DiscoveringCharacteristics(_, _) =>
        calls := Disconnect(false);
    }

    /*------------------------------------------------------------------
      Connection state machine: central manager events
    ------------------------------------------------------------------*/

    /**
     * `centralManagerDidUpdateState`: only power-on in `poweredOff` acts,
     * and only when the remembered peripheral is known to the adapter; then
     * it is connected (never a cancel: the manager is not connected while
     * powered off).
     */
    method DidUpdateState(managerState: ManagerState, registry: seq<Peripheral>) returns (calls: seq<Command>)
      requires Valid()
      modifies this`state, this`nextTimer
      ensures Evolves()
      ensures managerState == ManagerState.PoweredOn && old(state).PoweredOff? &&
              PowerOnTarget(old(persistedId), registry).Some? ==>
                var q := PowerOnTarget(old(persistedId), registry).value;
                state == Connecting(q, old(nextTimer)) && nextTimer == old(nextTimer) + 1 &&
                calls == [Command.Connect(q.id)]
      ensures !(managerState == ManagerState.PoweredOn && old(state).PoweredOff? &&
                PowerOnTarget(old(persistedId), registry).Some?) ==>
                unchanged(this) && calls == []
    {
      calls := [];
      if managerState == ManagerState.PoweredOn && state.PoweredOff? {
        var target := PowerOnTarget(persistedId, registry);
        if target.Some? {
          calls := Connect(target.value);
        }
      }
    }

    /** `didDiscover`: only while scanning; stops the scan and connects. */
    method DidDiscover(p: Peripheral) returns (calls: seq<Command>)
      requires Valid()
      modifies this`state, this`nextTimer
      ensures Evolves()
      ensures !old(state).Scanning? ==> unchanged(this) && calls == []
      ensures old(state).Scanning? ==> |calls| >= 1 && calls[0] == StopScan && AfterConnect(p, calls[1..])
    {
      calls := [];
      if !state.Scanning? { return; }
      var c := Connect(p);
      calls := [StopScan] + c;
    }

    /**
     * `didConnect`: ends any upload and clears pending data, then discovers
     * services unless the desired characteristic is already known.
     */
    method DidConnect(p: Peripheral) returns (calls: seq<Command>)
      requires Valid()
      modifies this`transferOngoing, this`dataToSend, this`state, this`nextTimer, this`persistedId, this`connected
      ensures Evolves() && !transferOngoing && dataToSend == []
      ensures MyDesiredCharacteristic(p).None? ==>
                state == DiscoveringServices(p, old(nextTimer)) && nextTimer == old(nextTimer) + 1 &&
                calls == [Command.DiscoverServices(p.id, [MyDesiredServiceId])] &&
                connected == old(connected) && persistedId == old(persistedId)
      ensures MyDesiredCharacteristic(p).Some? ==>
                BecameConnected(p) && nextTimer == old(nextTimer) &&
                calls == [SetNotify(p.id, MyDesiredCharacteristicId, true)]
    {
      ClearTransfer();
      if MyDesiredCharacteristic(p).None? {
        calls := DiscoverServices(p);
      } else {
        calls := SetConnected(p);
      }
    }

    /** The first statements of `didConnect`: no upload runs and no data is pending. */
    method ClearTransfer()
      requires Valid()
      modifies this`transferOngoing, this`dataToSend
      ensures Valid() && !transferOngoing && dataToSend == []
      ensures state == old(state) && nextTimer == old(nextTimer) && connected == old(connected) &&
              persistedId == old(persistedId)
    {
      transferOngoing, dataToSend := false, [];
    }

    /** `didFailToConnect`: always `.disconnected`, with `connected` left as it was. */
    method DidFailToConnect(p: Peripheral)
      requires Valid()
      modifies this`state
      ensures Evolves() && state == Disconnected
    {
      state := Disconnected;
    }

    /**
     * `didDisconnectPeripheral`: ends any upload; for the current
     * peripheral, reconnects without a countdown when the error says out of
     * range, else `.disconnected`.
     */
    method DidDisconnect(p: Peripheral, error: Option<BleError>) returns (calls: seq<Command>)
      requires Valid()
      modifies this`transferOngoing, this`connected, this`state
      ensures Evolves() && !transferOngoing
      ensures match OnDisconnect(old(state), p.id, error)
              case Ignore => state == old(state) && connected == old(connected) && calls == []
              case ReconnectWhenInRange => state == OutOfRange(p) && !connected && calls == [Command.Connect(p.id)]
              case Terminal => state == Disconnected && !connected && calls == []
    {
      var reaction := OnDisconnect(state, p.id, error);
      transferOngoing := false;
      calls := [];
      match reaction
      case Ignore =>
      case ReconnectWhenInRange =>
        calls := [Command.Connect(p.id)];
        connected, state := false, OutOfRange(p);
      case Terminal =>
        connected, state := false, Disconnected;
    }

    /*------------------------------------------------------------------
      Connection state machine: peripheral events
    ------------------------------------------------------------------*/

    /**
     * `didDiscoverServices`: only while discovering services; an error or a
     * missing desired service disconnects, else the characteristics of every
     * service are discovered and the state stays as it is.
     */
    method DidDiscoverServices(p: Peripheral, error: bool) returns (calls: seq<Command>)
      requires Valid()
      modifies this`persistedId, this`state, this`connected, this`transferOngoing
      ensures Evolves()
      ensures !old(state).DiscoveringServices? ==> unchanged(this) && calls == []
      ensures old(state).DiscoveringServices? && (error || MyDesiredService(p).None?) ==>
                AfterDisconnect(false) && calls == CancelCurrent(old(state))
      ensures old(state).DiscoveringServices? && !error && MyDesiredService(p).Some? ==>
                unchanged(this) && calls == DiscoverEach(p.id, p.services.value)
    {
      calls := [];
      if !state.DiscoveringServices? { return; }
      if error || MyDesiredService(p).None? {
        calls := Disconnect(false);
        return;
      }
      var services := p.services.value;
      for i := 0 to |services|
        invariant calls == DiscoverEach(p.id, services[..i])
      {
        assert DiscoverEach(p.id, services[..i + 1]) ==
               DiscoverEach(p.id, services[..i]) + [Command.DiscoverCharacteristics(p.id, services[i].uuid, None)];
        calls := calls + [Command.DiscoverCharacteristics(p.id, services[i].uuid, None)];
      }
      assert services[..|services|] == services;
    }

    /**
     * `didDiscoverCharacteristicsFor`: an error or a missing desired
     * characteristic disconnects; otherwise the status and OTA
     * characteristics are stored and switched (status to notify, OTA not)
     * and the peripheral becomes connected.
     */
    method DidDiscoverCharacteristics(p: Peripheral, service: Service, error: bool) returns (calls: seq<Command>)
      requires Valid()
      modifies this`statusCharacteristic, this`otaCharacteristic,
               this`persistedId, this`state, this`connected, this`transferOngoing
      ensures Evolves()
      ensures error || MyDesiredCharacteristic(p).None? ==>
                AfterDisconnect(false) && calls == CancelCurrent(old(state)) &&
                statusCharacteristic == old(statusCharacteristic) && otaCharacteristic == old(otaCharacteristic)
      ensures !error && MyDesiredCharacteristic(p).Some? && service.characteristics.None? ==>
                unchanged(this) && calls == []
      ensures !error && MyDesiredCharacteristic(p).Some? && service.characteristics.Some? ==>
                Configured(p, service.characteristics.value, calls)
    {
      calls := [];
      if error || MyDesiredCharacteristic(p).None? {
        calls := Disconnect(false);
      } else if service.characteristics.Some? {
        calls := Configure(p, service.characteristics.value);
      }
    }

    /**
     * The characteristics `cs` of `p` were stored by role, the notification
     * switches issued, and `setConnected` ran with the desired characteristic
     * present.
     */
    twostate predicate Configured(p: Peripheral, cs: seq<Characteristic>, calls: seq<Command>)
      reads this`statusCharacteristic, this`otaCharacteristic, this`transferOngoing, this`state,
            this`connected, this`persistedId
    {
      statusCharacteristic == Assigned(old(statusCharacteristic), cs, StatusCharacteristicId) &&
      otaCharacteristic == Assigned(old(otaCharacteristic), cs, OtaCharacteristicId) &&
      BecameConnected(p) && transferOngoing == old(transferOngoing) &&
      calls == NotifyCommands(p.id, cs) + [SetNotify(p.id, MyDesiredCharacteristicId, true)]
    }

    /** The loop over the discovered characteristics, followed by `setConnected(peripheral:)`. */
    method Configure(p: Peripheral, cs: seq<Characteristic>) returns (calls: seq<Command>)
      requires Valid() && MyDesiredCharacteristic(p).Some?
      modifies this`statusCharacteristic, this`otaCharacteristic,
               this`persistedId, this`state, this`connected, this`transferOngoing
      ensures Evolves() && Configured(p, cs, calls)
    {
      var status, ota, notify := AssignRoles(p.id, cs, statusCharacteristic, otaCharacteristic);
      statusCharacteristic, otaCharacteristic := status, ota;
      var connect := SetConnected(p);
      calls := notify + connect;
    }

    /** `didUpdateNotificationStateFor`: a characteristic that stopped notifying is switched back on. */
    method DidUpdateNotificationState(p: Peripheral, characteristic: Characteristic, isNotifying: bool, error: bool)
      returns (calls: seq<Command>)
      ensures !error && !isNotifying ==> calls == [SetNotify(p.id, characteristic.uuid, true)]
      ensures error || isNotifying ==> calls == []
    {
      calls := [];
      if !error && !isNotifying {
        calls := [SetNotify(p.id, characteristic.uuid, true)];
      }
    }

    /*------------------------------------------------------------------
      Uploads
    ------------------------------------------------------------------*/

    /**
     * `writeDataToPeriheral(characteristic:)` ran with the buffer at
     * `buffer0`, the package counter at `counter0`, the ongoing flag at
     * `ongoing0`, the sent-byte count at `sentBytes0` and the chunks written
     * at `sent0`, and made the calls `calls`: with no peripheral nothing
     * happens; otherwise the fields are those `WriteLoop` computes.
     */
    twostate predicate LoopRan(characteristic: Characteristic, ready: iset<nat>, maxWriteLength: int,
                               buffer0: seq<Byte>, counter0: int, ongoing0: bool, sentBytes0: int,
                               sent0: seq<seq<Byte>>, calls: seq<Command>)
      reads this`chunkSize, this`dataBuffer, this`packageCounter, this`transferOngoing, this`transferProgress,
            this`sentBytes, this`sentChunks, this`chunkCount, this`dataLength
    {
      var p := old(state).CurrentPeripheral();
      if p.None? then
        chunkSize == old(chunkSize) && dataBuffer == buffer0 && packageCounter == counter0 &&
        transferOngoing == ongoing0 && transferProgress == old(transferProgress) &&
        sentBytes == sentBytes0 && sentChunks == sent0 && calls == []
      else
        WindowWritten(p.value, characteristic, ready, maxWriteLength, buffer0, counter0, ongoing0, sentBytes0,
                      sent0, calls)
    }

    /**
     * The loop of `writeDataToPeriheral` ran for the current peripheral `p`
     * with the chunk size the peripheral allows: every chunk is one write
     * without response, and progress and sent-byte count follow the run.
     */
    twostate predicate WindowWritten(p: Peripheral, characteristic: Characteristic, ready: iset<nat>,
                                     maxWriteLength: int, buffer0: seq<Byte>, counter0: int, ongoing0: bool,
                                     sentBytes0: int, sent0: seq<seq<Byte>>, calls: seq<Command>)
      reads this`chunkSize, this`dataBuffer, this`packageCounter, this`transferOngoing, this`transferProgress,
            this`sentBytes, this`sentChunks, this`chunkCount, this`dataLength
    {
      var size := maxWriteLength - 3;
      (ongoing0 ==> size >= 1) &&
      var r := WriteLoop(buffer0, size, counter0, chunkCount, ongoing0, ready, 0);
      chunkSize == size && dataBuffer == r.rest && packageCounter == r.counter &&
      transferOngoing == (ongoing0 && !r.emptied) &&
      transferProgress == LoopProgress(old(transferProgress), dataLength, r) &&
      sentBytes == sentBytes0 + r.iterations * size &&
      calls == ChunkWrites(p.id, characteristic.uuid, r.chunks) &&
      sentChunks == sent0 + r.chunks
    }

    /**
     * `writeDataToPeriheral(characteristic:)`: with a current peripheral,
     * takes the chunk size from the peripheral's maximum write without
     * response and runs the loop on the upload's variables.
     */
    method WriteDataToPeriheral(characteristic: Characteristic, ready: iset<nat>, maxWriteLength: int)
      returns (calls: seq<Command>)
      requires Valid() && maxWriteLength > 3
      modifies this`chunkSize, this`dataBuffer, this`packageCounter, this`transferOngoing, this`transferProgress,
               this`sentBytes, this`sentChunks
      ensures Evolves()
      ensures LoopRan(characteristic, ready, maxWriteLength, old(dataBuffer), old(packageCounter),
                      old(transferOngoing), old(sentBytes), old(sentChunks), calls)
    {
      var p := state.CurrentPeripheral();
      if p.None? {
        calls := [];
        return;
      }
      calls := WriteWindow(p.value, characteristic, ready, maxWriteLength);
    }

    /** The loop of `writeDataToPeriheral` for the current peripheral `p`. */
    method WriteWindow(p: Peripheral, characteristic: Characteristic, ready: iset<nat>, maxWriteLength: int)
      returns (calls: seq<Command>)
      requires Valid() && maxWriteLength > 3
      modifies this`chunkSize, this`dataBuffer, this`packageCounter, this`transferOngoing, this`transferProgress,
               this`sentBytes, this`sentChunks
      ensures Evolves()
      ensures WindowWritten(p, characteristic, ready, maxWriteLength, old(dataBuffer), old(packageCounter),
                            old(transferOngoing), old(sentBytes), old(sentChunks), calls)
    {
      var size := maxWriteLength - 3;
      var buffer, counter, ongoing, progress, sent, chunks;
      buffer, counter, ongoing, progress, sent, calls, chunks :=
        WriteChunks(p.id, characteristic, dataBuffer, size, packageCounter, chunkCount, transferOngoing, ready,
                    transferProgress, dataLength, sentBytes);
      ConcatInvLoop(transferFile, sentChunks, dataBuffer, size, packageCounter, chunkCount, transferOngoing, ready);
      StoreWindow(size, buffer, counter, ongoing);
      StoreProgress(progress, sent, sentChunks + chunks);
    }

    /** Stores what the write loop left of the buffer and the window. */
    method StoreWindow(size: int, buffer: seq<Byte>, counter: int, ongoing: bool)
      modifies this`chunkSize, this`dataBuffer, this`packageCounter, this`transferOngoing
      ensures chunkSize == size && dataBuffer == buffer && packageCounter == counter && transferOngoing == ongoing
      ensures unchanged(this`state, this`nextTimer, this`connected, this`chunkCount, this`dataLength,
                        this`transferFile, this`transferProgress, this`sentBytes, this`sentChunks)
    {
      chunkSize, dataBuffer, packageCounter, transferOngoing := size, buffer, counter, ongoing;
    }

    /** Stores the progress, the sent-byte count and the chunks written, as the write loop left them. */
    method StoreProgress(progress: Option<real>, sent: int, ghost chunks: seq<seq<Byte>>)
      modifies this`transferProgress, this`sentBytes, this`sentChunks
      ensures transferProgress == progress && sentBytes == sent && sentChunks == chunks
      ensures unchanged(this`state, this`nextTimer, this`connected, this`chunkCount, this`dataLength,
                        this`transferFile, this`chunkSize, this`dataBuffer, this`packageCounter,
                        this`transferOngoing)
    {
      transferProgress, sentBytes, sentChunks := progress, sent, chunks;
    }

    /**
     * `didUpdateValueFor`: an error is ignored; a one-byte value is the
     * acknowledgement, which marks the first one and, while the upload
     * runs, restarts the window and writes the next chunks to the OTA
     * characteristic.
     */
    method DidUpdateValueFor(value: Option<seq<Byte>>, error: bool, ready: iset<nat>, maxWriteLength: int)
      returns (calls: seq<Command>)
      requires Valid()
      requires !error && value.Some? && |value.value| == 1 && transferOngoing ==>
                 otaCharacteristic.Some? && maxWriteLength > 3
      modifies this`firstAcknowledgeFromESP32, this`chunkSize, this`dataBuffer, this`packageCounter,
               this`transferOngoing, this`transferProgress, this`sentBytes, this`sentChunks
      ensures Evolves()
      ensures firstAcknowledgeFromESP32 ==
                (old(firstAcknowledgeFromESP32) || (!error && value.Some? && |value.value| == 1))
      ensures !error && value.Some? && |value.value| == 1 && old(transferOngoing) ==>
                LoopRan(old(otaCharacteristic).value, ready, maxWriteLength, old(dataBuffer), 0, true,
                        old(sentBytes), old(sentChunks), calls)
      ensures !(!error && value.Some? && |value.value| == 1 && old(transferOngoing)) ==>
                LoopIdle() && calls == []
    {
      calls := [];
      if error || value.None? || |value.value| != 1 { return; }
      MarkAcknowledged();
      if transferOngoing {
        calls := Acknowledge(ready, maxWriteLength);
      }
    }

    /** The first acknowledgement of the upload is noted. */
    method MarkAcknowledged()
      modifies this`firstAcknowledgeFromESP32
      ensures firstAcknowledgeFromESP32
      ensures unchanged(this`state, this`nextTimer, this`connected, this`chunkCount, this`dataLength,
                        this`transferFile, this`chunkSize, this`dataBuffer, this`packageCounter,
                        this`transferOngoing, this`transferProgress, this`sentBytes, this`sentChunks,
                        this`otaCharacteristic)
    {
      firstAcknowledgeFromESP32 := true;
    }

    /** The acknowledgement of a window: the counter restarts and writing resumes. */
    method Acknowledge(ready: iset<nat>, maxWriteLength: int) returns (calls: seq<Command>)
      requires Valid() && transferOngoing && otaCharacteristic.Some? && maxWriteLength > 3
      modifies this`chunkSize, this`dataBuffer, this`packageCounter, this`transferOngoing, this`transferProgress,
               this`sentBytes, this`sentChunks
      ensures Evolves()
      ensures LoopRan(old(otaCharacteristic).value, ready, maxWriteLength, old(dataBuffer), 0, true,
                      old(sentBytes), old(sentChunks), calls)
    {
      packageCounter := 0;
      calls := WriteDataToPeriheral(otaCharacteristic.value, ready, maxWriteLength);
    }

    /** The fields the write loop touches are as they were. */
    twostate predicate LoopIdle()
      reads this`chunkSize, this`dataBuffer, this`packageCounter, this`transferOngoing, this`transferProgress,
            this`sentBytes, this`sentChunks
    {
      chunkSize == old(chunkSize) && dataBuffer == old(dataBuffer) && packageCounter == old(packageCounter) &&
      transferOngoing == old(transferOngoing) && transferProgress == old(transferProgress) &&
      sentBytes == old(sentBytes) && sentChunks == old(sentChunks)
    }

    /**
     * `peripheralIsReady(toSendWriteWithoutResponse:)`: resumes writing
     * while the upload runs and the window is not full.
     */
    method PeripheralIsReady(ready: iset<nat>, maxWriteLength: int) returns (calls: seq<Command>)
      requires Valid()
      requires transferOngoing && packageCounter < chunkCount ==> otaCharacteristic.Some? && maxWriteLength > 3
      modifies this`chunkSize, this`dataBuffer, this`packageCounter, this`transferOngoing, this`transferProgress,
               this`sentBytes, this`sentChunks
      ensures Evolves()
      ensures old(transferOngoing) && old(packageCounter) < chunkCount ==>
                LoopRan(old(otaCharacteristic).value, ready, maxWriteLength, old(dataBuffer), old(packageCounter),
                        true, old(sentBytes), old(sentChunks), calls)
      ensures !(old(transferOngoing) && old(packageCounter) < chunkCount) ==> LoopIdle() && calls == []
    {
      calls := [];
      if transferOngoing && packageCounter < chunkCount {
        calls := WriteDataToPeriheral(otaCharacteristic.value, ready, maxWriteLength);
      }
    }

    /**
     * `sendFile(filename:fileEnding:)`: `load` is the file's content, None
     * when it cannot be read, which changes nothing. A read file replaces
     * the buffer (an upload in progress included), restarts the window and
     * the counters, and the first window is written to the OTA
     * characteristic.
     */
    method SendFile(load: Option<seq<Byte>>, ready: iset<nat>, maxWriteLength: int) returns (calls: seq<Command>)
      requires Valid()
      requires load.Some? ==> otaCharacteristic.Some? && maxWriteLength > 3
      modifies this`dataBuffer, this`dataLength, this`transferOngoing, this`packageCounter, this`sentBytes,
               this`firstAcknowledgeFromESP32, this`transferFile, this`sentChunks, this`chunkSize,
               this`transferProgress
      ensures Evolves()
      ensures load.None? ==> unchanged(this) && calls == []
      ensures load.Some? ==>
                dataLength == |load.value| && transferFile == load.value && !firstAcknowledgeFromESP32 &&
                LoopRan(old(otaCharacteristic).value, ready, maxWriteLength, load.value, 0, true, 0, [], calls)
    {
      calls := [];
      if load.None? { return; }
      LoadFile(load.value);
      calls := WriteDataToPeriheral(otaCharacteristic.value, ready, maxWriteLength);
    }

    /** The part of `sendFile` that installs a read file as the upload buffer and restarts the counters. */
    method LoadFile(content: seq<Byte>)
      requires Valid()
      modifies this`dataBuffer, this`dataLength, this`transferOngoing, this`packageCounter, this`sentBytes,
               this`firstAcknowledgeFromESP32, this`transferFile, this`sentChunks
      ensures Valid()
      ensures dataBuffer == content && dataLength == |content| && transferOngoing && packageCounter == 0 &&
              sentBytes == 0 && !firstAcknowledgeFromESP32 && transferFile == content && sentChunks == []
    {
      dataBuffer, dataLength, transferOngoing, packageCounter := content, |content|, true, 0;
      sentBytes, firstAcknowledgeFromESP32 := 0, false;
      transferFile, sentChunks := content, [];
    }
  }
}
