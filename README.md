# Receiver workers and device slice

This project models the part of the remote-testing web application that
talks to the USB receiver. That part has three pieces:

- **The WebUSB worker** (`DeviceWorker`). It asks the browser for the
  receiver and opens it. It reads the receiver's serial-number string
  descriptor and derives a key from it. How it derives the key depends on
  the platform in the user agent. It then sends `START\n`. While its
  read loop runs, it forwards each transfer whose status is "ok" and
  whose data is present and exactly 17 bytes long to the page as
  ENCRYPTED_DATA, together with the key (`null` once a disconnect has
  dropped it).
- **The Web Serial worker** (`UsbWorker`). It opens a serial port at 9600
  baud and derives the key from the port's USB serial number. It sends
  `START\n`, then decrypts every 17-byte chunk it reads. A decrypted
  chunk is posted as REMOTE_FOUND when its trimmed text starts with `{`
  and parses as JSON.
- **The `device` slice of the store** (`DeviceSlice`). It is a reducer
  over `{connected, error, deviceInfo, data}` with four actions.

`Common` holds the vocabulary both workers share:

- `Option` stands for `null`.
- `byte` is an element of a `Uint8Array`.
- `Awaited` is how a promise settles.
- `CharCodeKey` is the key built as `[...s].map(c => c.charCodeAt(0))`.

Each worker is modelled twice:

- as state-transition functions over its module-level variables plus the
  list of posted messages (`outbox`);
- as a class `Worker` whose fields are those variables.

Each method of the class is proved equal to its function. The properties
are proved as lemmas about the functions. Everything outside the worker's
own code is an input:

- the browser's answer to each awaited call;
- the user agent;
- the list of transfers or reads;
- the wasm `decrypt` and `JSON.parse`, as arbitrary functions.

Two facts about the code that the model makes explicit:

- **Packets are not reassembled.** Neither worker reassembles packets or
  waits for a collection window. Both look at each transfer or chunk on
  its own and drop anything that is not exactly 17 bytes long.
  `UsbWorker.SplitPacketIsDropped` proves that a packet split across two
  reads yields nothing. `UsbWorker.ReadsAreIndependent` proves that no
  state carries from one read to the next.
- **The descriptor index when a serial is present.** The WebUSB worker
  asks for string descriptor index 0 when the device reports a serial
  number, and index 3 otherwise. Section 9.6.7 of the USB 2.0
  Specification reserves index 0 for the table of supported language
  IDs. So on a Windows user agent the key then comes from that table's
  bytes, not from the serial string. The model keeps the request exactly
  as written (`DeviceWorker.SerialDescriptorRequest`). It proves what the
  Windows key is when the descriptor does hold the serial string
  (`DeviceWorker.PlatformsAgreeOnBmpSerial`). It also proves that a
  table listing only US English gives the one-byte key 0x09
  (`DeviceWorker.LangIdTableKey`).

## Model

| member | source | states |
|---|---|---|
| Common.CharCodeKey | src/workers/deviceWorker.ts:75-78 | the key has one byte per code point of the serial string, each the first UTF-16 code unit of that code point modulo 256 |
| Common.CharCodeKeyOfLatin1 | src/workers/usbWorker.ts:54-57 | for a Latin-1 serial string the key is exactly the string's character codes |
| Common.OrEmpty | src/workers/usbWorker.ts:54 | `s \|\| ""` gives the string when it is truthy and "" for null, undefined or "" |
| Common.FirstCodeUnit | src/workers/deviceWorker.ts:77 | `charCodeAt(0)` of a one-code-point string is below 0x10000 and is the code point itself in the Basic Multilingual Plane |
| Common.StartCommand | src/workers/deviceWorker.ts:45 | the START command is the six bytes 0x53 0x54 0x41 0x52 0x54 0x0A |
| Common.AsciiBytes | src/workers/deviceWorker.ts:45 | the START command's bytes are the ASCII codes of `START\n`, one per character |
| DeviceWorker.Includes | src/workers/deviceWorker.ts:172-174 | `userAgent.includes(sub)`, as a recursive search |
| DeviceWorker.GetOs | src/workers/deviceWorker.ts:170-176 | `getOS()`: "windows", "mac", "linux" or "unknown", tested in that order |
| DeviceWorker.GetOsPrecedence | src/workers/deviceWorker.ts:170-176 | "windows" iff the user agent contains "Windows"; "mac" iff it contains "Mac" but not "Windows"; "linux" iff it contains "Linux" but neither of the others; otherwise "unknown" |
| DeviceWorker.IncludesFindsOccurrence | src/workers/deviceWorker.ts:172-174 | the recursive substring search is true exactly when the substring occurs at some index |
| DeviceWorker.RequestFilters | src/workers/deviceWorker.ts:15-17 | one filter per product id, in order, each with the given vendor id |
| DeviceWorker.SerialDescriptorRequest | src/workers/deviceWorker.ts:46-57 | a standard GET_DESCRIPTOR (0x06) to the device for a string descriptor (high byte 3), index 0x0409, length 255; the string index is 0 when the serial number is truthy and 3 otherwise |
| DeviceWorker.WindowsKey | src/workers/deviceWorker.ts:67-73 | the Windows key is the descriptor's bytes at offsets 2, 4, 6, …, so its length is (n-1)/2 for a descriptor of n > 2 bytes and 0 otherwise |
| DeviceWorker.CollectWindowsKey | src/workers/deviceWorker.ts:68-73 | the stepping-by-two loop builds exactly the Windows key |
| DeviceWorker.Utf16Le | src/workers/deviceWorker.ts:68 | each UTF-16 code unit is laid out as its low byte then its high byte |
| DeviceWorker.StringDescriptor | src/workers/deviceWorker.ts:48-57 | a string descriptor starts with its length and type 3, then 2 bytes per code unit |
| DeviceWorker.WindowsKeyReadsLowBytes | src/workers/deviceWorker.ts:67-73 | read from a string descriptor, the Windows key is the low byte of every code unit of the string |
| DeviceWorker.LangIdTableKey | src/workers/deviceWorker.ts:46-73 | read from the language-ID table that index 0 returns, holding only US English, the Windows key is the single byte 0x09 |
| DeviceWorker.PlatformsAgreeOnBmpSerial | src/workers/deviceWorker.ts:63-79 | for a serial string in the Basic Multilingual Plane, the Windows key of its descriptor equals the character-code key used on other platforms |
| DeviceWorker.ConnectionErrorText | src/workers/deviceWorker.ts:137-151 | the ERROR text of a failed connection: "No device selected or device not found" for a NotFoundError, "Connection failed: " and the message otherwise |
| DeviceWorker.DerivedKey | src/workers/deviceWorker.ts:63-79 | the key derived from the descriptor bytes, by platform |
| DeviceWorker.ConnectSpec | src/workers/deviceWorker.ts:10-151 | `connectUSB` as a transition: each failing await ends the attempt with one ERROR; the device is stored once chosen, DEVICE_INFO follows setup, and the rest is `KeySpec` |
| DeviceWorker.KeySpec | src/workers/deviceWorker.ts:44-151 | `connectUSB` from the control transfer on: no data is an ERROR; otherwise the key is stored and posted, START is sent, CONNECTED is posted and the read loop runs |
| DeviceWorker.ConnectionErrorTextCases | src/workers/deviceWorker.ts:137-151 | the ERROR text is "No device selected or device not found" for a NotFoundError and "Connection failed: " followed by the message otherwise |
| DeviceWorker.ConnectFailureReportsOnce | src/workers/deviceWorker.ts:15-30 | a rejected requestDevice posts only its connection ERROR and changes nothing else; once a device is chosen, the first rejected await among open, selectConfiguration (only when unconfigured) and claimInterface posts exactly its one ERROR, the device stays stored, and the key and the stop flag are untouched, so nothing is read |
| DeviceWorker.ConnectControlTransferRejected | src/workers/deviceWorker.ts:48-57 | a rejected control transfer ends the attempt after DEVICE_INFO with its connection ERROR (the handler at lines 137-151); the device stays stored, no key is stored and nothing is read |
| DeviceWorker.ConnectWithoutDescriptorDataAborts | src/workers/deviceWorker.ts:59-61 | a control transfer with no data ends the connection after DEVICE_INFO with the ERROR "Connection failed: " followed by "No data received from control transfer"; no key is stored and nothing is read |
| DeviceWorker.ConnectStoresDerivedKey | src/workers/deviceWorker.ts:33-135 | once the descriptor arrives, the key is the Windows key on a Windows user agent and otherwise the serial's character codes, empty when no serial is reported; if sending START fails, the whole output is DEVICE_INFO, SERIAL_NUMBER and the connection ERROR, with the key stored; otherwise it is DEVICE_INFO, SERIAL_NUMBER, CONNECTED and then exactly the read loop's messages, each forwarded packet carrying that key (or none once a disconnect dropped it), and the key stays stored unless a disconnect happened |
| DeviceWorker.ConnectReachesKeySpec | src/workers/deviceWorker.ts:15-43 | once a device is chosen, opened, configured when needed and its interface claimed, the attempt goes on with that device stored and DEVICE_INFO posted |
| DeviceWorker.KeySpecWithDescriptor | src/workers/deviceWorker.ts:63-135 | from the descriptor on, SERIAL_NUMBER with the derived key is posted, then either the connection ERROR for a failed START or CONNECTED and the read loop's messages |
| DeviceWorker.DerivedKeyByPlatform | src/workers/deviceWorker.ts:63-79 | the derived key is the Windows key exactly when the user agent contains "Windows"; elsewhere it has one byte per character of the serial string, and none when the serial is absent or empty |
| DeviceWorker.KeySpecKeepsInvariant | src/workers/deviceWorker.ts:44-135 | from the control transfer on, connecting only appends messages and never leaves a key without a device |
| DeviceWorker.IsPacket | src/workers/deviceWorker.ts:109-112 | the gate of the loop: status "ok", data present and exactly 17 bytes long |
| DeviceWorker.Turn | src/workers/deviceWorker.ts:106-134 | one turn of the read loop: a disconnect handled while the transfer was pending, then the transfer's outcome |
| DeviceWorker.ListenFrom | src/workers/deviceWorker.ts:105-135 | the read loop: turns while the stop flag is clear and a device is held, ending after a failed transfer |
| DeviceWorker.ListenSpec | src/workers/deviceWorker.ts:102-135 | the loop started with the stop flag cleared |
| DeviceWorker.Consumed | src/workers/deviceWorker.ts:105-135 | the loop awaits transfers up to and including the first that fails or during which a disconnect happened |
| DeviceWorker.ListenAppendsOnly | src/workers/deviceWorker.ts:102-135 | the read loop only appends messages, and never leaves a key without a device |
| DeviceWorker.TurnAppendsOnly | src/workers/deviceWorker.ts:106-134 | one turn of the loop only appends messages, stops the loop once a disconnect happened, and never leaves a key without a device |
| DeviceWorker.TurnOutbox | src/workers/deviceWorker.ts:105-134 | one turn appends exactly its messages: the disconnect's message if one was handled meanwhile, then ENCRYPTED_DATA with the key (none after a disconnect) for a transfer that passes the gate, or "Transfer error: " and the message for a failed transfer with no disconnect; without a disconnect the key, device and running loop are kept, with one they are dropped |
| DeviceWorker.ListenOutbox | src/workers/deviceWorker.ts:102-135 | the loop's whole output is the turns' messages over the transfers it awaits, in order, with the key it started with; the key is dropped only by a disconnect during the last awaited transfer |
| DeviceWorker.TurnPosts | src/workers/deviceWorker.ts:106-134 | the messages of one turn, as listed above |
| DeviceWorker.LoopPosts | src/workers/deviceWorker.ts:105-135 | the messages of consecutive turns, in order |
| DeviceWorker.ClosedDuring | src/workers/deviceWorker.ts:178-193 | a disconnect was handled while the last awaited transfer was pending |
| DeviceWorker.CloseMessage | src/workers/deviceWorker.ts:182-190 | DISCONNECTED when `close()` resolves, "Disconnect error: " and the message when it rejects |
| DeviceWorker.TurnForwardsGated | src/workers/deviceWorker.ts:107-123 | one turn forwards its transfer's data exactly when the status is "ok", data is present and it is 17 bytes long |
| DeviceWorker.ListenForwardsExactlyGated | src/workers/deviceWorker.ts:109-123 | the ENCRYPTED_DATA payloads the loop posts are exactly the transfers that have status "ok", have data and are 17 bytes long, in order, among those it awaits |
| DeviceWorker.PacketsAppend | src/workers/deviceWorker.ts:116-122 | the forwarded packets of two message lists are those of the first followed by those of the second |
| DeviceWorker.GatedAppend | src/workers/deviceWorker.ts:109-112 | the transfers that pass the gate in two stretches are those of the first followed by those of the second |
| DeviceWorker.TransferErrorsAppend | src/workers/deviceWorker.ts:125-134 | the transfer errors of two message lists are those of the first followed by those of the second |
| DeviceWorker.DisconnectPostsNoTransferError | src/workers/deviceWorker.ts:178-194 | a disconnect only appends, and never posts a "Transfer error:" message |
| DeviceWorker.TurnReportsFailure | src/workers/deviceWorker.ts:125-134 | one turn posts a transfer error only for a failed transfer during which no disconnect happened, and then as its last message |
| DeviceWorker.ListenReportsOnlyFinalFailure | src/workers/deviceWorker.ts:125-134 | the loop posts at most one transfer error: the one for the transfer that ended it, only when the stop flag was still clear, and it is then the last message |
| DeviceWorker.DisconnectSpec | src/workers/deviceWorker.ts:178-194 | the stop flag is always set; with a device, it and the key are dropped and exactly one message is posted, DISCONNECTED iff close resolved and otherwise "Disconnect error: " followed by the message; without a device nothing else changes |
| DeviceWorker.OnMessageSpec | src/workers/deviceWorker.ts:196-229 | `onmessage` as a transition: CONNECT posts REQUEST_DEVICE_INFO then connects, DISCONNECT disconnects, anything else changes nothing |
| DeviceWorker.OnMessageKeepsInvariant | src/workers/deviceWorker.ts:196-229 | every handled message only appends to what was posted, and a key is never held without a device |
| DeviceWorker.Worker.Disconnect | src/workers/deviceWorker.ts:178-194 | the method's new state is the disconnect transition of the old state |
| DeviceWorker.Worker.TakeTurn | src/workers/deviceWorker.ts:106-134 | the loop body's new state is the one-turn transition |
| DeviceWorker.Worker.Listen | src/workers/deviceWorker.ts:102-135 | the loop's new state is the read-loop transition over the transfers |
| DeviceWorker.Worker.ConnectUsb | src/workers/deviceWorker.ts:10-42 | the method's new state is the connect transition, with each failing await ending in the matching ERROR text |
| DeviceWorker.Worker.ReadKeyAndListen | src/workers/deviceWorker.ts:44-151 | from the control transfer on, the new state is the second stage of the connect transition, with the Windows key built by the stepping-by-two loop |
| DeviceWorker.Worker.OnMessage | src/workers/deviceWorker.ts:196-222 | CONNECT posts REQUEST_DEVICE_INFO and then connects; DISCONNECT disconnects; DEVICE_INFO_RESPONSE and other types change nothing |
| UsbWorker.Trim | src/workers/usbWorker.ts:126 | `answer.trim()` |
| UsbWorker.StartsWithBrace | src/workers/usbWorker.ts:126 | `answer.trim().startsWith("{")` |
| UsbWorker.TrimStartSuffix | src/workers/usbWorker.ts:126 | the result is a suffix of the input, everything removed is white space, and it does not start with white space |
| UsbWorker.TrimEndPrefix | src/workers/usbWorker.ts:126 | the result is a prefix of the input, everything removed is white space, and it does not end with white space |
| UsbWorker.TrimKeepsInnerPart | src/workers/usbWorker.ts:126 | `trim()` keeps the part between leading and trailing white space, which neither starts nor ends with white space |
| UsbWorker.TrimmedStartsWithBrace | src/workers/usbWorker.ts:126 | `answer.trim().startsWith("{")` holds iff the first character that is not white space is `{` |
| UsbWorker.HandleRead | src/workers/usbWorker.ts:117-137 | one turn of the read loop: what it posts and whether it reads again |
| UsbWorker.ReadAll | src/workers/usbWorker.ts:116-137 | everything the loop posts over a list of reads, stopping after the turn that ends it |
| UsbWorker.ListenLoopSpec | src/workers/usbWorker.ts:110-143 | `listenLoop`: nothing without a port, a key and a readable stream, otherwise the loop's output appended |
| UsbWorker.OnlyPacketsReachDecrypt | src/workers/usbWorker.ts:121-124 | what decrypt does on anything but 17-byte input never affects what the loop posts |
| UsbWorker.Decode | src/workers/usbWorker.ts:121-133 | the payload a read yields: only for a 17-byte chunk whose decryption is a string that starts, once trimmed, with `{` and parses |
| UsbWorker.FailureText | src/workers/usbWorker.ts:117-137 | the error a read reports: a failed read's message, or what decrypt threw on a 17-byte chunk |
| UsbWorker.EndsReading | src/workers/usbWorker.ts:116-137 | the loop stops after a read that is done or reports an error |
| UsbWorker.HandleReadAgrees | src/workers/usbWorker.ts:117-137 | one read posts its payload as REMOTE_FOUND and then its error as ERROR, and the loop goes on unless the read ends it; a chunk that is missing or not 17 bytes long posts nothing and the loop goes on |
| UsbWorker.ReadsConsumed | src/workers/usbWorker.ts:116-137 | the loop awaits reads up to and including the first that ends it |
| UsbWorker.Decoded | src/workers/usbWorker.ts:121-133 | the payloads of a list of reads, in order |
| UsbWorker.LastFailure | src/workers/usbWorker.ts:136-137 | the ERROR of the last awaited read, when it reported one |
| UsbWorker.ReadAllPostsDecoded | src/workers/usbWorker.ts:116-137 | the loop's whole output is one REMOTE_FOUND per payload among the reads it awaits, in order, followed by the error of the read that ended it, if it reported one |
| UsbWorker.RemoteFoundsAreDecodedReads | src/workers/usbWorker.ts:121-137 | in particular the REMOTE_FOUND payloads are exactly the payloads of the awaited reads, in order, and at most one ERROR follows them |
| UsbWorker.ReadsAreIndependent | src/workers/usbWorker.ts:116-135 | while no read ends the loop, what it posts for two stretches of reads is what it posts for the first followed by what it posts for the second |
| UsbWorker.SplitPacketIsDropped | src/workers/usbWorker.ts:121 | a 17-byte packet that arrives in two pieces produces no message |
| UsbWorker.ConnectSpec | src/workers/usbWorker.ts:43-80 | without a port only "Serial port not received in worker." is posted; if opening at 9600 baud fails, only its error is posted; once it opens, the port and the character codes of its serial number ("" when absent) are stored, CONNECTED is posted, and then either the write's error when a writable stream rejects START, or the read loop's output when the port is readable, or nothing; the port and key change only then, and messages are only appended |
| UsbWorker.InitSpec | src/workers/usbWorker.ts:38-41 | INIT posts exactly one message: INIT_SUCCESS iff the module loaded, and otherwise an ERROR carrying the rejection's message (the outer handler at lines 105-106); the port and key are left alone |
| UsbWorker.DisconnectSpec | src/workers/usbWorker.ts:82-104 | the port and key are always dropped; DISCONNECTED is posted exactly when a port was held, whether closing it failed or not |
| UsbWorker.OnMessageSpec | src/workers/usbWorker.ts:34-108 | `onmessage` as a transition: INIT, CONNECT and DISCONNECT as above, anything else changes nothing |
| UsbWorker.Worker.Receive | src/workers/usbWorker.ts:117-134 | one read posts what the read handler says and reports whether the loop reads again; the port and key are unchanged |
| UsbWorker.Worker.ReadLoop | src/workers/usbWorker.ts:116-135 | the while loop posts exactly what the reads yield, up to the read that ends it; the port and key are unchanged |
| UsbWorker.Worker.ListenLoop | src/workers/usbWorker.ts:110-143 | the loop's new state is the listen transition: nothing without a port, a key and a readable stream, otherwise the output of the reads |
| UsbWorker.Worker.OnMessage | src/workers/usbWorker.ts:34-108 | INIT, CONNECT and DISCONNECT update the state as their transitions say; other types change nothing |
| DeviceSlice.InitialState | src/app/redux/feature/deviceSlice.ts:10-15 | not connected, no error, no device info, no data |
| DeviceSlice.Coherent | src/app/redux/feature/deviceSlice.ts:21-29 | the invariant the reducers keep: device info only while connected |
| DeviceSlice.Reduce | src/app/redux/feature/deviceSlice.ts:20-36 | each action keeps the invariant that device info is only held while connected; data only grows; only the connect and disconnect actions change `connected`, only connect and error change `error`, only addDeviceData changes `data` |
| DeviceSlice.LastConnection | src/app/redux/feature/deviceSlice.ts:21-29 | none exactly when no action is a connect or disconnect; otherwise a connect or disconnect that occurs in the sequence with no connect or disconnect after it |
| DeviceSlice.Run | src/app/redux/feature/deviceSlice.ts:17-40 | the state after dispatching a list of actions in order |
| DeviceSlice.RunKeepsCoherent | src/app/redux/feature/deviceSlice.ts:20-36 | from a state where device info is only held while connected, every sequence of actions keeps that so |
| DeviceSlice.ReachableIsCoherent | src/app/redux/feature/deviceSlice.ts:10-36 | in every state reachable from the initial state, `!connected` implies `deviceInfo == null` |
| DeviceSlice.RunAppendsData | src/app/redux/feature/deviceSlice.ts:33-35 | after any actions, the data list is the old list followed by the payloads of the addDeviceData actions, in order |
| DeviceSlice.RunNeverShrinksData | src/app/redux/feature/deviceSlice.ts:20-36 | no sequence of actions removes or changes a stored packet, so the list never gets shorter |
| DeviceSlice.RunSnoc | src/app/redux/feature/deviceSlice.ts:17-37 | dispatching one more action is one more reducer step |
| DeviceSlice.LatestConnectionWins | src/app/redux/feature/deviceSlice.ts:21-29 | the latest connect or disconnect decides `connected` and `deviceInfo`; without one, both are as they started |
| DeviceSlice.DeviceStore.constructor | src/app/redux/feature/deviceSlice.ts:10-15 | the store starts in the initial state |
| DeviceSlice.DeviceStore.SetDeviceConnected | src/app/redux/feature/deviceSlice.ts:21-25 | connected becomes true, device info becomes the payload, the error is cleared, and data is unchanged |
| DeviceSlice.DeviceStore.SetDeviceDisconnected | src/app/redux/feature/deviceSlice.ts:26-29 | connected becomes false and device info is cleared; the error and data are unchanged |
| DeviceSlice.DeviceStore.SetDeviceError | src/app/redux/feature/deviceSlice.ts:30-32 | only the error changes |
| DeviceSlice.DeviceStore.AddDeviceData | src/app/redux/feature/deviceSlice.ts:33-35 | the packet is appended at the end of data and nothing else changes |
| DeviceSlice.DeviceStore.Dispatch | src/app/redux/feature/deviceSlice.ts:17-40 | dispatching an action applies the reducer to the store and keeps the invariant |

## Left out

- WebUSB, Web Serial, streams and `TextEncoder` are modelled only through their answers. The model does not check that the browser honours the `requestDevice` filters or the 9600 baud rate.
- The `snappy-remote` `decrypt`, its `init` and `JSON.parse` are arbitrary functions. A `JSON.parse` that throws is a parse with no value.
- The transfers and reads are a finite list. Its end stands for the device still being connected with nothing more received yet. The WebUSB loop as written ends only on a transfer error or after a disconnect. The serial loop ends when a read is done, a read fails or decrypt throws.
- Common.CharCodeKey: a JavaScript string can hold a lone surrogate, but a Dafny `char` cannot, so serial strings with lone surrogates are outside the model.
- Concurrency in the WebUSB worker is modelled for one case only. A DISCONNECT handled while a `transferIn` is pending runs to completion, `await device.close()` included, before that transfer settles. The transfer could in fact settle while `close()` is still pending; that interleaving is not modelled.
- Concurrency in the Web Serial worker is not modelled. `listenLoop()` is started without `await`, and the model runs it to the end of its reads inside CONNECT. A DISCONNECT arriving while the loop is reading is not modelled. That includes the loop re-testing `port.readable` and its `finally` block reading `port` after it was set to null.
- DISCONNECT in the Web Serial worker always posts DISCONNECTED when a port was held. The reader cancel, the writer release and `port.close()` can all fail, but their failures are caught and only logged, so they are not inputs.
- A CONNECT message without a payload is not modelled. Reading `payload.port` or `payload.vendorId` on it throws a TypeError, which the outer handlers report as "ERROR" or "Worker error:".
- A DataView whose `.buffer` is larger than its view is not modelled. The model takes `result.data.buffer` to hold exactly the transfer's bytes.
- Console logging is left out.
- The endpoint number 2 of `transferOut` and `transferIn` and the 64 bytes requested from each `transferIn` are not modelled. The browser's answers to those calls are inputs, and a transfer whose data is not exactly 17 bytes long is dropped whatever its length.
- `getAndOpenDeviceFromStorage` is modelled only by what it does: it posts REQUEST_DEVICE_INFO and yields null. The branch for a stored device is therefore unreachable and is not modelled.
- The DEVICE_INFO_RESPONSE handler has an empty body, so it changes nothing.
- src/hooks/useDeviceWorker.ts is not part of this model. It is the hook that dispatches the slice's actions from the worker messages. The same goes for the page and component files and the store setup.
- DeviceSlice.DeviceState: `deviceInfo` is `any` in the source. The model makes it a type parameter, with `None` for `null`. A payload of `undefined` is therefore not told apart from `null`.
