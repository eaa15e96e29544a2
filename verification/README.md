# BLE upload managers, modelled in Dafny

This project models the two Bluetooth Low Energy managers of an iOS app. The app uploads files and
firmware images to an ESP32 LED controller.

- `BLE_Object.swift` is the full manager. It connects to the controller through a ten-state
  connection machine. It routes the controller's JSON status notifications and queues files for
  upload. It writes a file as a flow-controlled stream of write-without-response chunks, and a
  watchdog guards that stream.
- `BluetoothLE.swift` is a cut-down copy. It has the same state machine, an OTA-only upload, and a
  window size (`chunkCount`) that the UI can change between uploads.

Each Swift class becomes a Dafny `class` with the same fields. Its methods change those fields in
place:

- `BleObject.BLEConnection` models `BLE_Object.swift`;
- `BluetoothLe.BLEConnection` models `BluetoothLE.swift`.

Each delegate callback and each helper is one method. Each method returns the CoreBluetooth
requests it makes as a sequence of `Command` values (scan, stop scan, connect, cancel, set notify,
write). It states the new state of every field it may change. Everything the two files share is a
pure module:

| module | file | what it holds |
|---|---|---|
| `Gatt` | gatt.dfy | peripherals, services and characteristics as values; the first-match lookups `myDesiredService` and `myDesiredCharacteristic`; the UUID constants |
| `ConnectionState` | connection_state.dfy | the `StateBLE` enum and its `peripheral` accessor; the countdown each state owns |
| `Reconnect` | reconnect.dfy | the out-of-range heuristic that `didDisconnectPeripheral` applies |
| `Adapter` | adapter.dfy | the vocabulary of CoreBluetooth requests and adapter states |
| `ChunkWriter` | chunk_writer.dfy | the chunk loop of `writeDataToPeripheral` as a function, with the transfer it follows |
| `Inbound` | inbound.dfy | the router of status notifications, and the classifier of transfer-result codes (BLE_Object only) |
| `HexFormat` | hex.dfy | `Data.hex()` |

Each `Countdown` is a timer id, drawn from a counter (`nextTimer`) and stored in the state value
that owns it. A countdown that fires changes something only while the current state still owns that
id. This is how the source behaves, because replacing a state deinitialises its `Countdown`, and
the `deinit` invalidates the timer. Every handler keeps the invariant `Valid()`. In `BleObject` it
carries five facts:

- every id the state holds was handed out before `nextTimer`;
- so was the id of the armed upload watchdog;
- the manager is never `connected` while powered off;
- the package counter stays within the window, `0 <= packageCounter <= bufferLoopTimes`, and the
  chunk size is positive while an upload runs or waits to start;
- the chunks written so far, followed by the buffer still to send, are the file being uploaded.

In `BluetoothLe` it carries the first and third, the window facts `1 <= chunkCount <= 4` and
`0 <= packageCounter`, and that the bytes written so far, followed by the buffer, are the file.

The predicate `Evolves()` adds that a replaced countdown is never current again.

`canSendWriteWithoutResponse` is an oracle `ready: iset<nat>`. Iteration `k` of the loop may write
exactly when `k in ready`. The loop is a `while` loop over local copies, proved against the
function `ChunkWriter.WriteLoop`. The properties of the upload are proved about that function:

- the chunks concatenate back to the file;
- there are ceil(length / chunkSize) non-empty writes;
- the window bound holds;
- progress is monotone.

## Model

| member | source | states |
|---|---|---|
| Gatt.FirstIndex | BLE_Object.swift:1160-1171 | Swift's `first { }`: the index of the first element with the wanted key; no earlier element has it; None exactly when no element has it |
| Gatt.MyDesiredService | BLE_Object.swift:1160-1163 | the first discovered service with the desired service UUID; None when services are unknown or none matches |
| Gatt.MyDesiredCharacteristic | BLE_Object.swift:1165-1171 | a characteristic with the desired UUID, taken from the desired service; None when the service or its characteristic list is missing or none matches |
| Gatt.Retrieve | BLE_Object.swift:158-160 | `retrievePeripherals(withIdentifiers:).first`: a known peripheral with the id, None exactly when the registry holds none |
| Gatt.LastIndexWith | BLE_Object.swift:361-389 | the last characteristic with a UUID, which the role-assignment loop leaves in its variable; None exactly when none has it |
| Gatt.AssignedStep | BLE_Object.swift:361-389 | one more loop iteration: a role moves to the characteristic exactly when its UUID matches, and otherwise keeps what it held |
| ConnectionState.StateBLE.CurrentPeripheral | BLE_Object.swift:61-74 | the `peripheral` accessor: nil exactly for poweredOff, disconnected and scanning; otherwise the state's own peripheral |
| ConnectionState.StateBLE.OwnedCountdown | BLE_Object.swift:54-57 | exactly the scanning, connecting and two discovering states own a countdown, and it is the one they hold |
| ConnectionState.ReplacedCountdownIsReleased | BLE_Object.swift:1192-1203 | when a step replaces a state that owns a countdown, that countdown is no longer owned, so its firing is ignored (the `deinit` invalidation) |
| Reconnect.OnDisconnect | BLE_Object.swift:246-280 | a disconnect of a peripheral other than `state.peripheral` is ignored; for the current one, a CoreBluetooth error whose code is unknown (0), connectionTimeout (6), peripheralDisconnected (7) or connectionFailed (10) means reconnect-when-in-range; any other error, or none, is terminal |
| Reconnect.IdleStatesIgnoreDisconnect | BLE_Object.swift:61-74 | in poweredOff, disconnected and scanning a disconnect event is always ignored, since `peripheral` is nil there |
| Reconnect.NoErrorIsTerminal | BLE_Object.swift:275-278 | a disconnect without error of the current peripheral ends in `disconnected` |
| Adapter.ChunkWritesAppend | BLE_Object.swift:1044 | one more chunk adds exactly one write-without-response of that chunk at the end of the requests |
| Inbound.FirstContained | BLE_Object.swift:422-615 | the first tag of a list whose id the payload contains; no earlier tag is contained; None exactly when none is |
| Inbound.Route | BLE_Object.swift:422-615 | the `if / else if` chain over m02, m03, m04, m08, m09, m14: the chosen tag occurs in the payload; None exactly when no tag does |
| Inbound.RouteFirstTagWins | BLE_Object.swift:422-424 | any payload with a tag is routed; m02 wins over every other tag, and m14 is chosen only when no earlier tag occurs |
| Inbound.ShortPayloadNotRouted | BLE_Object.swift:405-422 | a payload shorter than three bytes, such as the one-byte acknowledgement, reaches no decoder |
| Inbound.Dispatch | BLE_Object.swift:418-627 | at most one record per notification; it has the type of the routed tag; an unrouted payload yields nothing; a routed payload yields nothing exactly when the decoder throws (the `catch`), and otherwise the decoded record itself |
| Inbound.ClassifyTransferResult | BLE_Object.swift:539-611 | success exactly for code 0; the unknown-error branch exactly outside 0...11 |
| Inbound.ClassifyRoundTrip | BLE_Object.swift:540-605 | each of the codes 0 to 11 has a case of its own, and the code can be recovered from it |
| Inbound.CodeRoundTrip | BLE_Object.swift:540-605 | every specific case comes from exactly its own code |
| ChunkWriter.ConcatAppend | BLE_Object.swift:1032-1058 | the bytes of two runs of chunks are the bytes of each, in order |
| ChunkWriter.ChunksOfConcat | BLE_Object.swift:1032-1058 | round trip: the chunks of a whole transfer concatenate back to the file |
| ChunkWriter.ChunksOfFull | BLE_Object.swift:1035-1045 | every chunk of a transfer holds 1 to chunkSize bytes and all but the last hold exactly chunkSize; a file has chunks exactly when it is non-empty |
| ChunkWriter.ChunksOfCount | BLE_Object.swift:1032-1058 | a transfer has ceil(length / chunkSize) chunks, and the last holds what is left after the full ones |
| ChunkWriter.WriteLoop | BLE_Object.swift:1032-1058 | one call of the loop: each write increments the counter; from a counter within the window the counter never passes it; the iteration that finds the buffer empty writes nothing and ends the upload; the loop stops only on an empty buffer, a busy adapter or a full window |
| ChunkWriter.ResumesStart | BLE_Object.swift:1032 | before the first iteration, the loop still has all of its run ahead |
| ChunkWriter.ResumesWrite | BLE_Object.swift:1035-1054 | an iteration that finds bytes writes the first min(chunkSize, remaining) of them, removes them and counts one package |
| ChunkWriter.ResumesEmpty | BLE_Object.swift:1047-1052 | the iteration that finds the buffer empty writes nothing and clears the ongoing flag |
| ChunkWriter.ResumesEnd | BLE_Object.swift:1032 | once the loop condition fails, the iterations done are the whole run |
| ChunkWriter.WriteLoopFollowsTransfer | BLE_Object.swift:1032-1058 | one call writes the next chunks of the whole transfer, and the rest of the transfer is the transfer of what is left |
| ChunkWriter.WriteLoopSplitsBuffer | BLE_Object.swift:1035-1054 | byte-exact: what one call writes, followed by what it leaves, is the buffer it started from |
| ChunkWriter.WriteLoopChunkSizes | BLE_Object.swift:1035-1045 | every write of one call holds between 1 and chunkSize bytes |
| ChunkWriter.EmptiedWritesAll | BLE_Object.swift:1047-1052 | a call that empties the buffer has written all of its remaining chunks |
| ChunkWriter.UploadInvStart | BLE_Object.swift:965-977 | a freshly loaded file has nothing written and its whole transfer ahead |
| ChunkWriter.UploadInvAdvance | BLE_Object.swift:1032-1058 | writing the next chunks of the buffer keeps "written chunks + chunks of the rest = chunks of the file" |
| ChunkWriter.UploadInvLoop | BLE_Object.swift:1032-1058 | every call of the loop keeps that invariant, whatever the adapter's readiness |
| ChunkWriter.Progress | BLE_Object.swift:1057 | `(1 - remaining/dataLength) * 100`: NaN (None) exactly for an empty file; otherwise between 0 and 100, and exactly 100 when nothing remains |
| ChunkWriter.WriteLoopShrinks | BLE_Object.swift:1054 | the buffer never grows during a call |
| ChunkWriter.ConcatInvLoop | BLE_Object.swift:1032-1058 | the bytes written so far followed by the buffer stay equal to the file across a call |
| ChunkWriter.ConcatLengthBound | BluetoothLE.swift:444-469 | chunks of at most n bytes hold at most n bytes each in all |
| ChunkWriter.ProgressMonotone | BluetoothLE.swift:467 | progress never decreases while the remaining byte count shrinks |
| ChunkWriter.LoopProgressMonotone | BluetoothLE.swift:441-473 | after a call that ran an iteration, progress is at least the progress of the buffer it started from, and it is 100 once the buffer is empty |
| ChunkWriter.ExampleTransfer | BLE_Object.swift:1032-1058 | a 1024-byte file in 20-byte chunks: 51 full chunks and a last one of 4 bytes |
| HexFormat.HexDigit | BLE_Object.swift:1178 | a lower-case hex digit whose value is the nibble |
| HexFormat.DigitValue | BLE_Object.swift:1178 | a digit's value is a nibble |
| HexFormat.Hex | BLE_Object.swift:1176-1180 | two characters per byte |
| HexFormat.Unhex | BLE_Object.swift:1176-1180 | a parsed dump has half as many bytes as characters |
| HexFormat.HexRoundTrip | BLE_Object.swift:1176-1180 | round trip: reading back the `%02hhx` dump of any data gives the data |
| HexFormat.HexInjective | BLE_Object.swift:1176-1180 | different data never have the same dump |
| BleObject.ChoosePowerOn | BLE_Object.swift:151-177 | the power-on fallback order: the persisted id exactly when the registry resolves it; else the first system-connected peripheral exactly when there is one; else a scan for new devices |
| BleObject.NotifyCommandsStep | BLE_Object.swift:361-389 | one more characteristic adds exactly its own notification request at the end |
| BleObject.NotifyCommandsRoles | BLE_Object.swift:371-384 | discovery switches notification on for the status characteristic only; every switch is for the status, transfer or OTA characteristic of this peripheral |
| BleObject.AssignRoles | BLE_Object.swift:361-389 | the loop over the characteristics: each role holds the last characteristic with its UUID (or its old value), and the notification requests are those of the characteristics in order |
| BleObject.WriteChunks | BLE_Object.swift:1032-1058 | the loop, run on locals: buffer, counter, ongoing flag, watchdog, timer ids, progress and writes are exactly those of `ChunkWriter.WriteLoop` |
| BleObject.BLEConnection.constructor | BLE_Object.swift:78-132 | a new manager is powered off, not connected, not scanning, uploads nothing, has empty queues, and satisfies the invariant |
| BleObject.BLEConnection.UploadTimeOut | BLE_Object.swift:1065-1080 | a watchdog that fires while current aborts the upload: file empty, not OTA, not ongoing, not successful, not silent, no timer; a stale watchdog changes nothing |
| BleObject.BLEConnection.Send | BLE_Object.swift:891-901 | raw bytes are written with response to the write characteristic of the current peripheral, and never while an upload runs |
| BleObject.BLEConnection.SendJsonBLE | BLE_Object.swift:903-920 | the JSON write happens only when nothing is projecting and the write characteristic is known; either refusal clears the upload flag; the invariant is kept |
| BleObject.BLEConnection.AskForStatus | BLE_Object.swift:692-706 | a status request is sent only when connected, not downloading and not uploading |
| BleObject.BLEConnection.AskForCrc | BLE_Object.swift:761-775 | a CRC-list request is sent under the same three guards |
| BleObject.BLEConnection.SendFileCheckToController | BLE_Object.swift:730-755 | the availability answer is reset to "not available", and the check is sent unless an upload runs |
| BleObject.BLEConnection.CheckLedDeviceJson | BLE_Object.swift:711-726 | the leddevice.json check is sent now and its follow-up is queued for later |
| BleObject.BLEConnection.LedCheckStep | BLE_Object.swift:718-725 | the deferred follow-up uploads leddevice.json silently exactly when the controller did not report it available |
| BleObject.BLEConnection.StartScanning | BLE_Object.swift:778-795 | only when powered on: the scan for the desired service starts under a fresh 10-second countdown; otherwise `scanning` is false and nothing else changes |
| BleObject.BLEConnection.Disconnect | BLE_Object.swift:798-811 | always ends disconnected, not connected, not scanning, not uploading, after cancelling the current peripheral; only `forget` drops the remembered id |
| BleObject.BLEConnection.Connect | BLE_Object.swift:814-835 | while connected, only a cancel with the state unchanged; otherwise a connect request and `connecting(p)` under a fresh countdown |
| BleObject.BLEConnection.DiscoverServices | BLE_Object.swift:838-846 | asks for the desired service and enters `discoveringServices(p)` under a fresh countdown |
| BleObject.BLEConnection.DiscoverCharacteristics | BLE_Object.swift:849-863 | without the desired service, a disconnect; otherwise it asks for the desired characteristic and enters `discoveringCharacteristics(p)` under a fresh countdown |
| BleObject.BLEConnection.SetConnected | BLE_Object.swift:865-889 | without the desired characteristic, a disconnect; otherwise the id is remembered, notification is on, the state is `connected(p)`, and the status request and the leddevice.json check follow |
| BleObject.BLEConnection.BecomeConnected | BLE_Object.swift:876-888 | the success path of `setConnected`, upload flag unchanged |
| BleObject.BLEConnection.MarkConnected | BLE_Object.swift:876-885 | the id is remembered, the state is `connected(p)`, and `connected` is true |
| BleObject.BLEConnection.SendGreeting | BLE_Object.swift:887-888 | the status request and the leddevice.json check, with the invariant kept |
| BleObject.BLEConnection.Cleanup | BLE_Object.swift:1139-1154 | a cancel of the current peripheral only while its link is connected |
| BleObject.BLEConnection.CountdownFired | BLE_Object.swift:789-862 | a countdown the current state no longer owns does nothing; the scan countdown stops the scan and ends disconnected; the connect countdown cancels and ends disconnected; the discovery countdowns disconnect |
| BleObject.BLEConnection.DidUpdateState | BLE_Object.swift:135-206 | powered off only raises `bleIsOff`; state, scan flag, timer ids and session stay as they were; powered on does what `PowerOn` states; every other adapter state changes nothing |
| BleObject.BLEConnection.PowerOnFromOff | BLE_Object.swift:151-177 | connects to the resolved persisted peripheral, else to the system-connected one, with the scan flag kept; else scans; one timer id is used and the session (remembered id, link, upload, checks) is kept |
| BleObject.BLEConnection.PowerOn | BLE_Object.swift:149-199 | `bleIsOff` is kept; from poweredOff what `PowerOnFromOff` states, from the two restoring states what `ResumeRestored` states, from any other state nothing changes |
| BleObject.BLEConnection.ResumeRestored | BLE_Object.swift:179-199 | a restored connecting peripheral is connected again; a restored connected one is rediscovered when its characteristic is unknown, otherwise set connected with the timer ids and upload flag kept; discovery and connecting keep the session (id, link, upload, checks) and the scan flag |
| BleObject.BLEConnection.DidDiscover | BLE_Object.swift:209-217 | ignored unless scanning; otherwise the scan stops and the peripheral is connected |
| BleObject.BLEConnection.DidConnect | BLE_Object.swift:220-236 | the upload flag and the pending data are cleared; then service discovery if the desired characteristic is unknown, which keeps the remembered id, link, scan flag and checks and uses one timer id; else `setConnected` |
| BleObject.BLEConnection.ClearTransfer | BLE_Object.swift:222-225 | no upload runs and no data is pending; the connection fields are unchanged |
| BleObject.BLEConnection.DidFailToConnect | BLE_Object.swift:239-243 | always ends `disconnected`; the following `cleanup` requests nothing |
| BleObject.BLEConnection.DidDisconnect | BLE_Object.swift:246-280 | always clears uploading, projecting and downloading; the state and `connected` follow `Reconnect.OnDisconnect`, with a connect request when out of range |
| BleObject.BLEConnection.DidDiscoverServices | BLE_Object.swift:315-337 | ignored outside `discoveringServices`; an error or a missing desired service disconnects; otherwise characteristics are discovered for every service, in order |
| BleObject.BLEConnection.DidDiscoverCharacteristics | BLE_Object.swift:340-392 | an error or a missing desired characteristic disconnects with all five roles and the leddevice.json check unchanged; a service without a characteristic list changes nothing; otherwise the roles are assigned, then `setConnected` |
| BleObject.BLEConnection.Configure | BLE_Object.swift:361-391 | the role loop followed by the success path of `setConnected` |
| BleObject.BLEConnection.StoreRoles | BLE_Object.swift:363-384 | the five role fields hold the given characteristics |
| BleObject.BLEConnection.DidUpdateNotificationState | BLE_Object.swift:673-683 | without error, a characteristic that stopped notifying is switched back on; otherwise nothing |
| BleObject.BLEConnection.DidUpdateValueFor | BLE_Object.swift:395-629 | an error or no value does nothing; a one-byte value during an upload restarts the window and resumes writing to the OTA or transfer characteristic; the decoded record, if any, is queued for the main queue |
| BleObject.BLEConnection.Enqueue | BLE_Object.swift:424-617 | the records are appended to the main-queue work, and nothing else changes |
| BleObject.BLEConnection.Acknowledge | BLE_Object.swift:407-413 | the counter restarts at 0 and the loop runs again to the current target |
| BleObject.BLEConnection.StoreStatus | BLE_Object.swift:425-618 | each record lands in its own status field; an m09 reply sets `transferSuccessful` exactly for code 0 |
| BleObject.BLEConnection.FileStatusArrived | BLE_Object.swift:501-510 | an m08 answer is stored and the next queued file is sent |
| BleObject.BLEConnection.Handle | BLE_Object.swift:424-623 | an m08 answer stores `ok` and runs `sendFileFromBuffer`; any other record lands in its own field, with no request and the upload untouched |
| BleObject.BLEConnection.StatusArrived | BLE_Object.swift:424-623 | the block of a record other than m08: the record is stored and no request is made |
| BleObject.BLEConnection.MainQueueStep | BLE_Object.swift:424-623 | the oldest queued record is handled and removed from the queue |
| BleObject.BLEConnection.WriteDataToPeripheral | BLE_Object.swift:1021-1059 | without a current peripheral, nothing; otherwise the buffer, counter, flags, watchdog and progress are those of one `WriteLoop` run, and the writes are its chunks in order |
| BleObject.BLEConnection.WriteWindow | BLE_Object.swift:1027-1058 | the loop for the current peripheral; the written chunks are appended to those of the upload |
| BleObject.BLEConnection.StoreWindow | BLE_Object.swift:1027-1054 | the chunk size, buffer, counter and flags hold what the loop left |
| BleObject.BLEConnection.StoreProgress | BLE_Object.swift:1039-1057 | the watchdog, timer ids and progress hold what the loop left |
| BleObject.BLEConnection.PeripheralIsReady | BLE_Object.swift:923-931 | writing resumes exactly while an upload runs and `packageCounter <= bufferLoopTimes`; otherwise nothing changes |
| BleObject.BLEConnection.SendFile | BLE_Object.swift:940-1019 | while projecting, nothing is loaded; an unreadable file changes only the silent flag; otherwise the file is the new upload buffer, and with a peripheral the transfer information is announced and the start is queued |
| BleObject.BLEConnection.SetSilent | BLE_Object.swift:951 | the silent flag is set, and nothing else changes |
| BleObject.BLEConnection.InstallFile | BLE_Object.swift:958-1005 | a read file becomes the upload buffer; with a peripheral the transfer is announced |
| BleObject.BLEConnection.LoadFile | BLE_Object.swift:958-977 | the buffer is the file, nothing of it is written, `fileEmpty` is false, and `dataLength` is its size; the OTA flag says whether the file is firmware |
| BleObject.BLEConnection.AnnounceFile | BLE_Object.swift:979-1005 | the announced size is the file's, the chunk size is max write length minus 3, the window is 1 for OTA and 16 otherwise, the result is pending (99), and the counter is 0 |
| BleObject.BLEConnection.TransferStartStep | BLE_Object.swift:1007-1018 | the deferred start: result pending, not successful, upload running, and the first window is written to the target |
| BleObject.BLEConnection.BeginTransfer | BLE_Object.swift:1008-1010 | the result is pending, the transfer is not successful, and the upload runs |
| BleObject.BLEConnection.AddFileToSendBuffer | BLE_Object.swift:1101-1115 | the file is appended at the end of the queue |
| BleObject.BLEConnection.SendFileFromBuffer | BLE_Object.swift:1119-1132 | nothing while an upload runs or the queue is empty; otherwise the head item is sent and exactly index 0 is removed, keeping the old tail in order |
| BluetoothLe.PowerOnTarget | BluetoothLE.swift:99-114 | the persisted peripheral, exactly when the registry resolves the persisted id; there is no other fallback |
| BluetoothLe.NotifyCommandsStep | BluetoothLE.swift:233-249 | one more characteristic adds exactly its own notification request at the end |
| BluetoothLe.NotifyCommandsRoles | BluetoothLE.swift:236-244 | status gets notify on, OTA gets notify off, and nothing else is switched |
| BluetoothLe.AssignRoles | BluetoothLE.swift:233-249 | the status and OTA roles hold the last characteristic with their UUIDs (or their old value), and the notification requests are those of the characteristics in order |
| BluetoothLe.WriteChunks | BluetoothLE.swift:441-473 | the loop, run on locals: buffer, counter, ongoing flag, progress and writes are those of `ChunkWriter.WriteLoop`; `sentBytes` grows by chunkSize per iteration |
| BluetoothLe.SentBytesOvercounts | BluetoothLE.swift:469 | `sentBytes` never undercounts the bytes written, and overcounts them whenever the buffer runs empty |
| BluetoothLe.BLEConnection.constructor | BluetoothLE.swift:57-81 | a new manager is powered off and not connected; `transferOngoing` starts true, the window is 2 chunks, and the counters are 0 |
| BluetoothLe.BLEConnection.SetChunkCount | ContentView.swift:51-52 | the stepper sets the window within 1...4, and only while no upload runs |
| BluetoothLe.BLEConnection.StartScanning | BluetoothLE.swift:304-316 | only when powered on: a scan for the desired service under a fresh 10-second countdown |
| BluetoothLe.BLEConnection.Disconnect | BluetoothLE.swift:319-331 | always ends disconnected, not connected, not uploading; only `forget` drops the remembered id |
| BluetoothLe.BLEConnection.Connect | BluetoothLE.swift:334-351 | while connected, only a cancel; otherwise a connect request and `connecting(p)` under a fresh countdown |
| BluetoothLe.BLEConnection.DiscoverServices | BluetoothLE.swift:354-362 | asks for the desired service and enters `discoveringServices(p)` under a fresh countdown |
| BluetoothLe.BLEConnection.DiscoverCharacteristics | BluetoothLE.swift:365-378 | without the desired service, a disconnect; otherwise `discoveringCharacteristics(p)` under a fresh countdown |
| BluetoothLe.BLEConnection.SetConnected | BluetoothLE.swift:380-399 | without the desired characteristic, a disconnect; otherwise the id is remembered, notification is on, and the state is `connected(p)` with `connected` true |
| BluetoothLe.BLEConnection.CountdownFired | BluetoothLE.swift:311-377 | a countdown the current state no longer owns does nothing; the scan countdown stops the scan; the connect countdown cancels; the discovery countdowns disconnect |
| BluetoothLe.BLEConnection.DidUpdateState | BluetoothLE.swift:84-119 | only power-on from poweredOff with a resolvable persisted id connects; every other case, a scan included, changes nothing |
| BluetoothLe.BLEConnection.DidDiscover | BluetoothLE.swift:122-129 | ignored unless scanning; otherwise the scan stops and the peripheral is connected |
| BluetoothLe.BLEConnection.DidConnect | BluetoothLE.swift:132-148 | the upload flag and pending data are cleared; then service discovery if the desired characteristic is unknown, using one timer id, else `setConnected` with the timer ids kept |
| BluetoothLe.BLEConnection.ClearTransfer | BluetoothLE.swift:135-138 | no upload runs and no data is pending; the connection fields are unchanged |
| BluetoothLe.BLEConnection.DidFailToConnect | BluetoothLE.swift:151-154 | always `disconnected`, whatever the state was |
| BluetoothLe.BLEConnection.DidDisconnect | BluetoothLE.swift:157-182 | always clears the upload flag; the state and `connected` follow `Reconnect.OnDisconnect`, with a connect request when out of range |
| BluetoothLe.BLEConnection.DidDiscoverServices | BluetoothLE.swift:189-211 | ignored outside `discoveringServices`; an error or a missing desired service disconnects; otherwise characteristics are discovered for every service |
| BluetoothLe.BLEConnection.DidDiscoverCharacteristics | BluetoothLE.swift:213-251 | an error or a missing desired characteristic disconnects with the roles unchanged; no characteristic list changes nothing; otherwise status and OTA are assigned and notified, then `setConnected` |
| BluetoothLe.BLEConnection.Configure | BluetoothLE.swift:233-250 | the role loop followed by the success path of `setConnected` |
| BluetoothLe.BLEConnection.DidUpdateNotificationState | BluetoothLE.swift:288-298 | without error, a characteristic that stopped notifying is switched back on |
| BluetoothLe.BLEConnection.WriteDataToPeriheral | BluetoothLE.swift:430-474 | without a current peripheral, nothing; otherwise one `WriteLoop` run with chunk size max write length minus 3 and window `chunkCount`; the written chunks extend the upload's and still concatenate with the buffer to the file |
| BluetoothLe.BLEConnection.WriteWindow | BluetoothLE.swift:435-473 | the loop for the current peripheral, with progress and `sentBytes` as the loop leaves them |
| BluetoothLe.BLEConnection.StoreWindow | BluetoothLE.swift:435-464 | the chunk size, buffer, counter and ongoing flag hold what the loop left |
| BluetoothLe.BLEConnection.StoreProgress | BluetoothLE.swift:467-469 | progress and `sentBytes` hold what the loop left |
| BluetoothLe.BLEConnection.DidUpdateValueFor | BluetoothLE.swift:253-276 | the first one-byte value marks the first acknowledgement; a one-byte value during an upload restarts the window and writes to the OTA characteristic; anything else changes nothing |
| BluetoothLe.BLEConnection.MarkAcknowledged | BluetoothLE.swift:265-268 | the first acknowledgement is noted, and nothing else changes |
| BluetoothLe.BLEConnection.Acknowledge | BluetoothLE.swift:270-273 | the counter restarts at 0 and the loop runs again |
| BluetoothLe.BLEConnection.PeripheralIsReady | BluetoothLE.swift:403-407 | writing resumes exactly while an upload runs and `packageCounter < chunkCount` |
| BluetoothLe.BLEConnection.SendFile | BluetoothLE.swift:409-427 | an unreadable file changes nothing; otherwise the file is the buffer, `dataLength` is its size, counters restart, the upload runs, and the first window is written to the OTA characteristic |
| BluetoothLe.BLEConnection.LoadFile | BluetoothLE.swift:417-424 | the buffer is the file, the upload runs from counter 0 with nothing sent, and no acknowledgement has been seen |

## Left out

- CoreBluetooth is not called. Each request is returned as a `Command` value. Inputs come in as parameters:
  - the adapter state;
  - the registries that `retrievePeripherals` and `retrieveConnectedPeripherals` search;
  - `maximumWriteValueLength`;
  - `canSendWriteWithoutResponse`, as the `ready` oracle.
- UUIDs are integers. `UserDefaults` is the field `persistedId: Option<Uuid>`.
- `Timer`, `Countdown` and `DispatchQueue.main.async`/`asyncAfter` are modelled without wall-clock time:
  - a countdown or the watchdog is a timer id, and its firing is a method call;
  - a block hopped to the main queue is an entry in a pending queue or counter, and its run is a step method. This covers `MainQueueStep`, `LedCheckStep` and `TransferStartStep`.
  - The order in which such events interleave is left to the caller.
- JSON encoding and decoding are abstract:
  - requests are `Request` values;
  - the decoder is a function parameter that returns a record of the routed type or fails.
  - An m09 reply updates only `transferResult`, whose other fields the model takes as echoed. The decoded records keep `downloading` (m03); `playing`, `done` and `triggered` (m04); `ok` and `crc` (m08); the result code (m09); and `name` and `value` (m14). The manager stores `downloading`, `playing`, `ok`, the m09 code and the whole m02 and m14 records.
- `String(decoding:as:)` and `contains` are a byte search for the ASCII tag. Unicode repair of invalid UTF-8 is not modelled, and neither is Swift's grapheme-cluster matching: a tag whose last byte is followed by a combining mark (bytes `6D 30 32 CC 81`), or whose first byte follows a prepend character, is found by the byte search, where the grapheme-aware `contains` may not find it.
- UI state is not modelled: `name`, `showToast`, `message`, haptics, `UIImpactFeedbackGenerator`, audio and the log prints.
- The projection timer (`projectionTimeOut`, `startProjectionTimer`, `stopProjectionTimer`) is a UI timeout and is not modelled. The m04 branch stores only `playing`; its `done` and `triggered` drive haptics and the projection timer, which are not modelled.
- Floating point and clocks are not modelled:
  - `transferProgress` is an exact `Option<real>`, with None for the NaN of an empty file;
  - `startTime`, `stopTime`, `elapsedTime`, `kBPerSecond` and `CFAbsoluteTimeGetCurrent` are left out.
- `willRestoreState` is commented out in the source, so the restoring states are never entered. `DidUpdateState` still models their branches.
- `didWriteValueFor` only logs and is not modelled.
- `method(arg:completion:)` and `Data.byte()` are not used by the managers and are not modelled. The `completion` callbacks of `sendFile` only carry log strings and are dropped.
- `calculateCrc`, `getBundleFileToData`, `getDocumentFileToData` and `getBinFileToData` are not part of this model:
  - a file's content is a parameter, None when the read fails;
  - the CRC of leddevice.json is a constructor argument.
- BleObject.BLEConnection.SendFile: requires a maximum write length above 3. At exactly 3 the source computes chunk size 0: each run of the write loop still stops at the window, but every chunk is empty, the buffer never shrinks and the upload never completes while acknowledgements keep arriving. Below 3 its range traps.
- BluetoothLe.BLEConnection.WriteDataToPeriheral: requires a maximum write length above 3, for the same reason.
- BleObject.BLEConnection.DidUpdateValueFor: requires that the target characteristic is known when an acknowledgement arrives during an upload. The source force-unwraps it and would crash.
- BleObject.BLEConnection.PeripheralIsReady: requires the same.
- BleObject.BLEConnection.TransferStartStep: requires that the target characteristic is known when the queued start runs; the source force-unwraps `otaCharacteristic` or `transferCharacteristic` there and would crash.
- BluetoothLe.BLEConnection.SendFile: requires the OTA characteristic whenever a file was read, because the source force-unwraps `otaCharacteristic`. DidUpdateValueFor and PeripheralIsReady require the same where they write.
- The empty nested loop of `cleanup` is inert and is not modelled. `Cleanup` models only its cancel.
- The `fileTransferOngoing` `didSet` observer only logs and is not modelled.
- The loop of `writeDataToPeripheral` runs on local copies of the fields, and they are written back once after the loop. Fields are not aliased, so nothing can observe the difference.
- BluetoothLe.WriteChunks: `sentBytes` is kept exactly as the source counts it. It adds the chunk size even for a short last chunk or the empty-buffer iteration, and `SentBytesOvercounts` states the gap. The throughput figure derived from it is left out.
