/** The WebUSB worker of src/workers/deviceWorker.ts.

    The worker keeps three module-level variables (`stopListening`, `device`,
    `serial_number`) and talks to the page only through `postMessage`.  Here
    that state is `WorkerState` (with the posted messages as `outbox`), each
    handler is a state-transition function over it, and class `Worker` holds
    the same variables as fields with methods proved against those functions.
    Every WebUSB call becomes an input: a `UsbHost` says how each awaited
    call settles, and the read loop consumes a finite list of transfers. */
module DeviceWorker {
  import opened Common

  // Constants of the exchange.  The control transfer is a GET_DESCRIPTOR
  // request (section 9.4.3 of the USB 2.0 Specification) for a string
  // descriptor (section 9.6.7), in US English.
  const GetDescriptor: nat := 0x06
  const StringDescriptorType: nat := 0x03
  const LangIdEnglishUs: nat := 0x0409
  const DescriptorLength: nat := 255

  // ---------------------------------------------------------------------
  // Values exchanged with the browser and the page

  datatype DeviceFilter = DeviceFilter(vendorId: nat, productId: nat)

  /** What `navigator.usb.requestDevice` hands back, as far as the worker
      looks at it; `configured` is `device.configuration !== null`. */
  datatype UsbDevice = UsbDevice(vendorId: nat, productId: nat, serialNumber: Option<string>, configured: bool)

  datatype RequestType = Standard | Class | Vendor
  datatype Recipient = ToDevice | ToInterface | ToEndpoint | ToOther

  /** The setup of a `controlTransferIn` call and the length it asks for. */
  datatype ControlSetup = ControlSetup(
    requestType: RequestType, recipient: Recipient,
    request: nat, value: nat, index: nat, length: nat)

  datatype TransferStatus = Ok | Stall | Babble

  /** How one `await device.transferIn(2, 64)` settles. */
  datatype TransferIn = Completed(status: TransferStatus, data: Option<Bytes>) | Failed(message: string)

  /** One turn of the read loop: the transfer's outcome and, when a
      DISCONNECT message was handled while the transfer was pending, how that
      handler's `device.close()` settled. */
  datatype Step = Step(disconnect: Option<Awaited<()>>, outcome: TransferIn)

  /** The browser's answers to every WebUSB call one CONNECT or DISCONNECT
      makes. */
  datatype UsbHost = UsbHost(
    userAgent: string,
    requestDevice: seq<DeviceFilter> -> Awaited<UsbDevice>,
    open: Awaited<()>,
    selectConfiguration: Awaited<()>,
    claimInterface: Awaited<()>,
    controlTransferIn: ControlSetup -> Awaited<Option<Bytes>>,
    transferOut: Bytes -> Awaited<()>,
    transfers: seq<Step>,
    close: Awaited<()>)

  datatype DeviceInfo = DeviceInfo(vendorId: nat, productId: nat, serialNumber: string)

  /** The messages the worker posts, by their `type`. */
  datatype Message =
    | RequestDeviceInfo
    | DeviceInfoMessage(info: DeviceInfo)
    | SerialNumber(key: Bytes)
    | Connected(vendorId: nat, productId: nat)
    | EncryptedData(data: Bytes, serialNumber: Option<Bytes>)
    | Disconnected
    | Error(text: string)

  /** The messages the worker handles, by their `type`. */
  datatype Request =
    | ConnectRequest(vendorId: nat, productIds: seq<nat>)
    | DisconnectRequest
    | DeviceInfoResponse
    | Unrecognised

  /** The module-level variables and everything posted so far. */
  datatype WorkerState = WorkerState(
    stopListening: bool,
    device: Option<UsbDevice>,
    serialNumber: Option<Bytes>,
    outbox: seq<Message>)

  function InitialWorker(): WorkerState {
    WorkerState(false, None, None, [])
  }

  function Posted(s: WorkerState, m: Message): WorkerState {
    s.(outbox := s.outbox + [m])
  }

  /** A key is only ever held while a device is. */
  predicate KeyOnlyWithDevice(s: WorkerState) {
    s.device.None? ==> s.serialNumber.None?
  }

  // ---------------------------------------------------------------------
  // getOS

  /** `s.includes(sub)`. */
  function Includes(s: string, sub: string): bool
    decreases |s|
  {
    if sub <= s then true
    else if s == [] then false
    else Includes(s[1..], sub)
  }

  ghost predicate OccursIn(sub: string, s: string) {
    exists i :: 0 <= i <= |s| && sub <= s[i..]
  }

  lemma {:induction false} IncludesFindsOccurrence(s: string, sub: string)
    ensures Includes(s, sub) <==> OccursIn(sub, s)
    decreases |s|
  {
    if sub <= s {
      assert s[0..] == s;
    } else if s == [] {
      forall i | 0 <= i <= |s|
        ensures !(sub <= s[i..])
      {
        assert s[i..] == s;
      }
    } else {
      IncludesFindsOccurrence(s[1..], sub);
      if OccursIn(sub, s[1..]) {
        var i :| 0 <= i <= |s[1..]| && sub <= s[1..][i..];
        assert s[1..][i..] == s[i + 1..];
      }
      if OccursIn(sub, s) {
        assert s[0..] == s;
        var i :| 0 <= i <= |s| && sub <= s[i..];
        assert s[1..][i - 1..] == s[i..];
      }
    }
  }

  /** The host platform, read from the user agent. */
  function GetOs(userAgent: string): string {
    if Includes(userAgent, "Windows") then "windows"
    else if Includes(userAgent, "Mac") then "mac"
    else if Includes(userAgent, "Linux") then "linux"
    else "unknown"
  }

  /** "Windows" is looked for first, then "Mac", then "Linux". */
  lemma GetOsPrecedence(userAgent: string)
    ensures GetOs(userAgent) == "windows" <==> OccursIn("Windows", userAgent)
    ensures GetOs(userAgent) == "mac" <==> !OccursIn("Windows", userAgent) && OccursIn("Mac", userAgent)
    ensures GetOs(userAgent) == "linux" <==>
      !OccursIn("Windows", userAgent) && !OccursIn("Mac", userAgent) && OccursIn("Linux", userAgent)
    ensures GetOs(userAgent) == "unknown" <==>
      !OccursIn("Windows", userAgent) && !OccursIn("Mac", userAgent) && !OccursIn("Linux", userAgent)
  {
    IncludesFindsOccurrence(userAgent, "Windows");
    IncludesFindsOccurrence(userAgent, "Mac");
    IncludesFindsOccurrence(userAgent, "Linux");
  }

  // ---------------------------------------------------------------------
  // The serial key

  /** The `requestDevice` filters: one per product id, all with the vendor id. */
  function RequestFilters(vendorId: nat, productIds: seq<nat>): (filters: seq<DeviceFilter>)
    ensures |filters| == |productIds|
    ensures forall i :: 0 <= i < |productIds| ==>
      filters[i].vendorId == vendorId && filters[i].productId == productIds[i]
  {
    if productIds == [] then []
    else [DeviceFilter(vendorId, productIds[0])] + RequestFilters(vendorId, productIds[1..])
  }

  /** The control transfer that reads the key's string descriptor: a
      standard GET_DESCRIPTOR to the device whose wValue has the descriptor
      type (string) in its high byte and the string index in its low byte.
      The index is 0 when the device reports a non-empty serial number and
      3 otherwise. */
  function SerialDescriptorRequest(serialNumber: Option<string>): (setup: ControlSetup)
    ensures setup.requestType == Standard && setup.recipient == ToDevice
    ensures setup.request == 0x06 && setup.index == 0x0409 && setup.length == 255
    ensures setup.value / 256 == 0x03
    ensures setup.value % 256 == (if Truthy(serialNumber) then 0 else 3)
  {
    var descriptorIndex := if Truthy(serialNumber) then 0 else 3;
    ControlSetup(Standard, ToDevice, GetDescriptor, StringDescriptorType * 256 + descriptorIndex,
                 LangIdEnglishUs, DescriptorLength)
  }

  /** The Windows key: the descriptor's bytes at offsets 2, 4, 6, ... in
      order, that is the low byte of every UTF-16LE code unit after the
      two-byte header.  The header and every odd offset are never read. */
  function WindowsKey(descriptor: Bytes): (key: Bytes)
    ensures |key| == if |descriptor| <= 2 then 0 else (|descriptor| - 1) / 2
    ensures forall k :: 0 <= k < |key| ==> key[k] == descriptor[2 * k + 2]
    decreases |descriptor|
  {
    if |descriptor| <= 2 then [] else [descriptor[2]] + WindowsKey(descriptor[2..])
  }

  /** The `for (let i = 2; i < serialKey.length; i += 2)` loop that builds
      the Windows key. */
  method CollectWindowsKey(serialKey: Bytes) returns (key: Bytes)
    ensures key == WindowsKey(serialKey)
  {
    var serialArray: Bytes := [];
    var i := 2;
    while i < |serialKey|
      invariant i == 2 * |serialArray| + 2
      invariant i <= |serialKey| + 1 || serialArray == []
      invariant forall k :: 0 <= k < |serialArray| ==> serialArray[k] == serialKey[2 * k + 2]
    {
      serialArray := serialArray + [serialKey[i]];
      i := i + 2;
    }
    key := serialArray;
  }

  /** The UTF-16 code units of a string. */
  function Utf16Units(s: string): (units: seq<nat>)
    ensures forall k :: 0 <= k < |units| ==> units[k] < 0x1_0000
  {
    if s == [] then []
    else
      var c := s[0] as int;
      (if c < 0x1_0000 then [c as nat]
       else [0xD800 + (c - 0x1_0000) / 0x400, 0xDC00 + (c - 0x1_0000) % 0x400])
      + Utf16Units(s[1..])
  }

  lemma {:induction false} Utf16UnitsOfBmp(s: string)
    requires forall k :: 0 <= k < |s| ==> (s[k] as int) < 0x1_0000
    ensures |Utf16Units(s)| == |s|
    ensures forall k :: 0 <= k < |s| ==> Utf16Units(s)[k] == s[k] as int
  {
    if s != [] {
      Utf16UnitsOfBmp(s[1..]);
    }
  }

  /** Code units laid out little-endian, two bytes each. */
  function Utf16Le(units: seq<nat>): (b: Bytes)
    requires forall k :: 0 <= k < |units| ==> units[k] < 0x1_0000
    ensures |b| == 2 * |units|
    ensures forall k :: 0 <= k < |units| ==>
      b[2 * k] as int == units[k] % 256 && b[2 * k + 1] as int == units[k] / 256
  {
    if units == [] then []
    else [(units[0] % 256) as byte, (units[0] / 256) as byte] + Utf16Le(units[1..])
  }

  /** A string descriptor as section 9.6.7 of the USB 2.0 Specification lays
      it out: bLength, bDescriptorType = 3, then the string in UTF-16LE. */
  function StringDescriptor(units: seq<nat>): (d: Bytes)
    requires |units| <= 126
    requires forall k :: 0 <= k < |units| ==> units[k] < 0x1_0000
    ensures |d| == 2 + 2 * |units| && d[0] as int == |d| && d[1] as int == StringDescriptorType
  {
    [(2 + 2 * |units|) as byte, StringDescriptorType as byte] + Utf16Le(units)
  }

  /** Read from a string descriptor, the Windows key is the low byte of each
      code unit of the string it carries. */
  lemma WindowsKeyReadsLowBytes(units: seq<nat>)
    requires |units| <= 126
    requires forall k :: 0 <= k < |units| ==> units[k] < 0x1_0000
    ensures |WindowsKey(StringDescriptor(units))| == |units|
    ensures forall k :: 0 <= k < |units| ==> WindowsKey(StringDescriptor(units))[k] as int == units[k] % 256
  {
    var d := StringDescriptor(units);
    assert d[2..] == Utf16Le(units);
    forall k | 0 <= k < |units|
      ensures WindowsKey(d)[k] as int == units[k] % 256
    {
      assert d[2 * k + 2] == d[2..][2 * k];
    }
  }

  /** When the descriptor carries a serial string of the Basic Multilingual
      Plane, the two platform branches derive the same key. */
  lemma PlatformsAgreeOnBmpSerial(serial: string)
    requires |serial| <= 126
    requires forall k :: 0 <= k < |serial| ==> (serial[k] as int) < 0x1_0000
    ensures |Utf16Units(serial)| <= 126
    ensures WindowsKey(StringDescriptor(Utf16Units(serial))) == CharCodeKey(serial)
  {
    Utf16UnitsOfBmp(serial);
    WindowsKeyReadsLowBytes(Utf16Units(serial));
  }

  /** Index 0, which the worker asks for whenever the device reports a
      serial number, is the table of supported language IDs; holding only
      US English (0x0409), it yields the one-byte Windows key 0x09. */
  lemma LangIdTableKey()
    ensures WindowsKey(StringDescriptor([LangIdEnglishUs])) == [0x09]
  {
    WindowsKeyReadsLowBytes([LangIdEnglishUs]);
  }

  // ---------------------------------------------------------------------
  // connectUSB

  /** The text of the ERROR posted when connecting fails. */
  function ConnectionErrorText(f: Fault): string {
    if f.name == "NotFoundError" then "No device selected or device not found"
    else "Connection failed: " + f.message
  }

  /** What the worker throws when the control transfer brings no data. */
  const NoDataFault := Fault("Error", "No data received from control transfer")

  /** The key the worker derives once the control transfer returned the
      descriptor bytes. */
  function DerivedKey(userAgent: string, descriptor: Bytes, serialNumber: Option<string>): Bytes {
    if GetOs(userAgent) == "windows" then WindowsKey(descriptor) else CharCodeKey(OrEmpty(serialNumber))
  }

  /** `connectUSB`: each failing await ends the attempt with one ERROR.
      The device is stored as soon as it is chosen. */
  function ConnectSpec(s: WorkerState, vendorId: nat, productIds: seq<nat>, host: UsbHost): WorkerState {
    match host.requestDevice(RequestFilters(vendorId, productIds))
    case Rejected(f) => Posted(s, Error(ConnectionErrorText(f)))
    case Resolved(d) =>
      var s1 := s.(device := Some(d));
      if host.open.Rejected? then Posted(s1, Error(ConnectionErrorText(host.open.fault)))
      else if !d.configured && host.selectConfiguration.Rejected? then
        Posted(s1, Error(ConnectionErrorText(host.selectConfiguration.fault)))
      else if host.claimInterface.Rejected? then Posted(s1, Error(ConnectionErrorText(host.claimInterface.fault)))
      else KeySpec(Posted(s1, DeviceInfoMessage(DeviceInfo(d.vendorId, d.productId, OrEmpty(d.serialNumber)))), d, host)
  }

  /** The rest of `connectUSB` once DEVICE_INFO is posted: read the
      descriptor, store and post the key, send the start command, listen. */
  function KeySpec(s: WorkerState, d: UsbDevice, host: UsbHost): WorkerState {
    match host.controlTransferIn(SerialDescriptorRequest(d.serialNumber))
    case Rejected(f) => Posted(s, Error(ConnectionErrorText(f)))
    case Resolved(None) => Posted(s, Error(ConnectionErrorText(NoDataFault)))
    case Resolved(Some(descriptor)) =>
      var key := DerivedKey(host.userAgent, descriptor, d.serialNumber);
      var s3 := Posted(s.(serialNumber := Some(key)), SerialNumber(key));
      match host.transferOut(StartCommand())
      case Rejected(f) => Posted(s3, Error(ConnectionErrorText(f)))
      case Resolved(_) => ListenSpec(Posted(s3, Connected(d.vendorId, d.productId)), host.transfers)
  }

  /** The ERROR text names a missing device for a NotFoundError and
      otherwise carries the fault's message after "Connection failed: ". */
  lemma ConnectionErrorTextCases(f: Fault)
    ensures f.name == "NotFoundError" ==> ConnectionErrorText(f) == "No device selected or device not found"
    ensures f.name != "NotFoundError" ==> ConnectionErrorText(f) == "Connection failed: " + f.message
  {
  }

  /** An attempt that fails before DEVICE_INFO posts exactly one ERROR, for
      the first await that rejected, and reads nothing: the key and the stop
      flag are untouched, and the device is stored only once it was chosen. */
  lemma ConnectFailureReportsOnce(s: WorkerState, vendorId: nat, productIds: seq<nat>, host: UsbHost)
    ensures var chosen := host.requestDevice(RequestFilters(vendorId, productIds));
      chosen.Rejected? ==>
        ConnectSpec(s, vendorId, productIds, host) == Posted(s, Error(ConnectionErrorText(chosen.fault)))
    ensures var chosen := host.requestDevice(RequestFilters(vendorId, productIds));
      var r := ConnectSpec(s, vendorId, productIds, host);
      chosen.Resolved? && !SetupSucceeds(chosen.value, host) ==>
        && r.device == Some(chosen.value)
        && r.serialNumber == s.serialNumber
        && r.stopListening == s.stopListening
        && (host.open.Rejected? ==>
              r.outbox == s.outbox + [Error(ConnectionErrorText(host.open.fault))])
        && (host.open.Resolved? && !chosen.value.configured && host.selectConfiguration.Rejected? ==>
              r.outbox == s.outbox + [Error(ConnectionErrorText(host.selectConfiguration.fault))])
        && (host.open.Resolved? && (chosen.value.configured || host.selectConfiguration.Resolved?) ==>
              host.claimInterface.Rejected? &&
              r.outbox == s.outbox + [Error(ConnectionErrorText(host.claimInterface.fault))])
  {
  }

  /** The device setup steps all succeed. */
  predicate SetupSucceeds(d: UsbDevice, host: UsbHost) {
    host.open.Resolved? && (d.configured || host.selectConfiguration.Resolved?) && host.claimInterface.Resolved?
  }

  /** Once a device is chosen and set up, `connectUSB` goes on with the
      device stored and DEVICE_INFO posted. */
  lemma ConnectReachesKeySpec(s: WorkerState, vendorId: nat, productIds: seq<nat>, host: UsbHost, d: UsbDevice)
    requires host.requestDevice(RequestFilters(vendorId, productIds)) == Resolved(d)
    requires SetupSucceeds(d, host)
    ensures ConnectSpec(s, vendorId, productIds, host)
      == KeySpec(Posted(s.(device := Some(d)), DeviceInfoMessage(DeviceInfo(d.vendorId, d.productId, OrEmpty(d.serialNumber)))), d, host)
  {
  }

  /** A control transfer without data ends the attempt with an error before
      any key is stored or any transfer is read. */
  /** A rejected control transfer ends the attempt after DEVICE_INFO with
      that transfer's connection ERROR; no key is stored and nothing is
      read. */
  lemma ConnectControlTransferRejected(s: WorkerState, vendorId: nat, productIds: seq<nat>, host: UsbHost, d: UsbDevice)
    requires host.requestDevice(RequestFilters(vendorId, productIds)) == Resolved(d)
    requires SetupSucceeds(d, host)
    requires host.controlTransferIn(SerialDescriptorRequest(d.serialNumber)).Rejected?
    ensures var r := ConnectSpec(s, vendorId, productIds, host);
      && r.serialNumber == s.serialNumber
      && r.stopListening == s.stopListening
      && r.device == Some(d)
      && r.outbox == s.outbox + [DeviceInfoMessage(DeviceInfo(d.vendorId, d.productId, OrEmpty(d.serialNumber))),
                                 Error(ConnectionErrorText(host.controlTransferIn(SerialDescriptorRequest(d.serialNumber)).fault))]
  {
    ConnectReachesKeySpec(s, vendorId, productIds, host, d);
  }

  lemma ConnectWithoutDescriptorDataAborts(s: WorkerState, vendorId: nat, productIds: seq<nat>, host: UsbHost, d: UsbDevice)
    requires host.requestDevice(RequestFilters(vendorId, productIds)) == Resolved(d)
    requires SetupSucceeds(d, host)
    requires host.controlTransferIn(SerialDescriptorRequest(d.serialNumber)) == Resolved(None)
    ensures var r := ConnectSpec(s, vendorId, productIds, host);
      && r.serialNumber == s.serialNumber
      && r.stopListening == s.stopListening
      && r.device == Some(d)
      && r.outbox == s.outbox + [DeviceInfoMessage(DeviceInfo(d.vendorId, d.productId, OrEmpty(d.serialNumber))),
                                 Error("Connection failed: " + NoDataFault.message)]
  {
    ConnectReachesKeySpec(s, vendorId, productIds, host, d);
  }

  /** Once the descriptor bytes arrive, the key stored and posted is the
      Windows key on a Windows user agent and the serial string's character
      codes elsewhere, empty when the device reports no serial number.  If
      the start command goes out, CONNECTED follows and then exactly what the
      read loop posts, every forwarded packet carrying that key; the key
      stays stored unless a disconnect dropped it. */
  lemma ConnectStoresDerivedKey(s: WorkerState, vendorId: nat, productIds: seq<nat>, host: UsbHost, d: UsbDevice, descriptor: Bytes)
    requires host.requestDevice(RequestFilters(vendorId, productIds)) == Resolved(d)
    requires SetupSucceeds(d, host)
    requires host.controlTransferIn(SerialDescriptorRequest(d.serialNumber)) == Resolved(Some(descriptor))
    ensures var r := ConnectSpec(s, vendorId, productIds, host);
      var key := if OccursIn("Windows", host.userAgent) then WindowsKey(descriptor) else CharCodeKey(OrEmpty(d.serialNumber));
      var info := DeviceInfoMessage(DeviceInfo(d.vendorId, d.productId, OrEmpty(d.serialNumber)));
      && (!OccursIn("Windows", host.userAgent) ==> |key| == |OrEmpty(d.serialNumber)|)
      && (!OccursIn("Windows", host.userAgent) && !Truthy(d.serialNumber) ==> key == [])
      && (host.transferOut(StartCommand()).Rejected? ==>
            r.serialNumber == Some(key) && r.device == Some(d) &&
            r.outbox == s.outbox + [info, SerialNumber(key), Error(ConnectionErrorText(host.transferOut(StartCommand()).fault))])
      && (host.transferOut(StartCommand()).Resolved? ==>
            r.serialNumber == (if ClosedDuring(host.transfers) then None else Some(key)) &&
            r.outbox == s.outbox + [info, SerialNumber(key), Connected(d.vendorId, d.productId)]
                        + LoopPosts(host.transfers[..Consumed(host.transfers)], Some(key)))
  {
    DerivedKeyByPlatform(host.userAgent, descriptor, d.serialNumber);
    var info := DeviceInfoMessage(DeviceInfo(d.vendorId, d.productId, OrEmpty(d.serialNumber)));
    var key := DerivedKey(host.userAgent, descriptor, d.serialNumber);
    var s2 := Posted(s.(device := Some(d)), info);
    ConnectReachesKeySpec(s, vendorId, productIds, host, d);
    KeySpecWithDescriptor(s2, d, host, descriptor);
    if host.transferOut(StartCommand()).Rejected? {
      AppendThree(s.outbox, info, SerialNumber(key), Error(ConnectionErrorText(host.transferOut(StartCommand()).fault)));
    } else {
      AppendThree(s.outbox, info, SerialNumber(key), Connected(d.vendorId, d.productId));
    }
  }

  /** Regrouping one message and then two more. */
  lemma AppendThree<T>(a: seq<T>, x: T, y: T, z: T)
    ensures (a + [x]) + [y, z] == a + [x, y, z]
  {
  }

  /** The derived key is the Windows key exactly on a Windows user agent;
      elsewhere it has one byte per character of the serial number. */
  lemma DerivedKeyByPlatform(userAgent: string, descriptor: Bytes, serialNumber: Option<string>)
    ensures DerivedKey(userAgent, descriptor, serialNumber)
      == if OccursIn("Windows", userAgent) then WindowsKey(descriptor) else CharCodeKey(OrEmpty(serialNumber))
    ensures !OccursIn("Windows", userAgent) ==> |DerivedKey(userAgent, descriptor, serialNumber)| == |OrEmpty(serialNumber)|
    ensures !OccursIn("Windows", userAgent) && !Truthy(serialNumber) ==> DerivedKey(userAgent, descriptor, serialNumber) == []
  {
    GetOsPrecedence(userAgent);
  }

  /** `KeySpec` once the control transfer returned `descriptor`. */
  lemma KeySpecWithDescriptor(s: WorkerState, d: UsbDevice, host: UsbHost, descriptor: Bytes)
    requires s.device.Some?
    requires host.controlTransferIn(SerialDescriptorRequest(d.serialNumber)) == Resolved(Some(descriptor))
    ensures var r := KeySpec(s, d, host);
      var key := DerivedKey(host.userAgent, descriptor, d.serialNumber);
      && (host.transferOut(StartCommand()).Rejected? ==>
            r.serialNumber == Some(key) && r.device == s.device &&
            r.outbox == s.outbox + [SerialNumber(key), Error(ConnectionErrorText(host.transferOut(StartCommand()).fault))])
      && (host.transferOut(StartCommand()).Resolved? ==>
            r.serialNumber == (if ClosedDuring(host.transfers) then None else Some(key)) &&
            r.outbox == s.outbox + [SerialNumber(key), Connected(d.vendorId, d.productId)]
                        + LoopPosts(host.transfers[..Consumed(host.transfers)], Some(key)))
  {
    var key := DerivedKey(host.userAgent, descriptor, d.serialNumber);
    var s3 := Posted(s.(serialNumber := Some(key)), SerialNumber(key));
    if host.transferOut(StartCommand()).Resolved? {
      var s4 := Posted(s3, Connected(d.vendorId, d.productId));
      ListenOutbox(s4.(stopListening := false), host.transfers);
    }
  }

  // ---------------------------------------------------------------------
  // The read loop

  /** The gate of the read loop: status "ok", data present, exactly 17 bytes. */
  predicate IsPacket(t: TransferIn) {
    t.Completed? && t.status == Ok && t.data.Some? && |t.data.value| == PacketSize
  }

  /** One turn of the read loop: the disconnect handled while the transfer
      was pending, if any, then what the loop does with the transfer. */
  function Turn(s: WorkerState, step: Step): WorkerState {
    var s1 := if step.disconnect.Some? then DisconnectSpec(s, step.disconnect.value) else s;
    match step.outcome
    case Completed(_, data) =>
      if IsPacket(step.outcome) then Posted(s1, EncryptedData(data.value, s1.serialNumber)) else s1
    case Failed(message) =>
      if s1.stopListening then s1 else Posted(s1, Error("Transfer error: " + message))
  }

  /** The read loop from its test `!stopListening && device` on, consuming
      the given transfers; a failed transfer ends it. */
  function ListenFrom(s: WorkerState, steps: seq<Step>): WorkerState
    decreases |steps|
  {
    if s.stopListening || s.device.None? || steps == [] then s
    else if steps[0].outcome.Failed? then Turn(s, steps[0])
    else ListenFrom(Turn(s, steps[0]), steps[1..])
  }

  /** `connectUSB` once the device is set up: clear the stop flag, then loop. */
  function ListenSpec(s: WorkerState, steps: seq<Step>): WorkerState {
    ListenFrom(s.(stopListening := false), steps)
  }

  /** A turn after which the loop leaves: its transfer failed, or a
      disconnect set the stop flag while it was pending. */
  predicate EndsLoop(step: Step) {
    step.outcome.Failed? || step.disconnect.Some?
  }

  /** How many transfers the loop awaits: up to and including the first one
      that ends it. */
  function Consumed(steps: seq<Step>): (n: nat)
    ensures n <= |steps|
    ensures forall i :: 0 <= i < n - 1 ==> !EndsLoop(steps[i])
    ensures n < |steps| ==> n > 0 && EndsLoop(steps[n - 1])
  {
    if steps == [] then 0
    else if EndsLoop(steps[0]) then 1
    else 1 + Consumed(steps[1..])
  }

  /** The bytes of the ENCRYPTED_DATA messages among `out`, in order. */
  function Packets(out: seq<Message>): seq<Bytes> {
    if out == [] then []
    else (if out[0].EncryptedData? then [out[0].data] else []) + Packets(out[1..])
  }

  /** The data of the transfers that pass the gate, in order. */
  function Gated(steps: seq<Step>): seq<Bytes> {
    if steps == [] then []
    else (if IsPacket(steps[0].outcome) then [steps[0].outcome.data.value] else []) + Gated(steps[1..])
  }

  lemma {:induction false} PacketsAppend(a: seq<Message>, b: seq<Message>)
    ensures Packets(a + b) == Packets(a) + Packets(b)
  {
    if a != [] {
      assert (a + b)[1..] == a[1..] + b;
      PacketsAppend(a[1..], b);
    } else {
      assert a + b == b;
    }
  }

  lemma {:induction false} GatedAppend(a: seq<Step>, b: seq<Step>)
    ensures Gated(a + b) == Gated(a) + Gated(b)
  {
    if a != [] {
      assert (a + b)[1..] == a[1..] + b;
      GatedAppend(a[1..], b);
    } else {
      assert a + b == b;
    }
  }

  /** A turn only appends messages, leaves the loop's test false once a
      disconnect happened, and never leaves a key without a device. */
  lemma TurnAppendsOnly(s: WorkerState, step: Step)
    ensures s.outbox <= Turn(s, step).outbox
    ensures step.disconnect.Some? ==> Turn(s, step).stopListening
    ensures KeyOnlyWithDevice(s) ==> KeyOnlyWithDevice(Turn(s, step))
  {
  }

  /** Messages are only ever appended. */
  lemma {:induction false} ListenAppendsOnly(s: WorkerState, steps: seq<Step>)
    ensures s.outbox <= ListenFrom(s, steps).outbox
    ensures KeyOnlyWithDevice(s) ==> KeyOnlyWithDevice(ListenFrom(s, steps))
    decreases |steps|
  {
    if !(s.stopListening || s.device.None? || steps == []) {
      TurnAppendsOnly(s, steps[0]);
      if steps[0].outcome.Completed? {
        ListenAppendsOnly(Turn(s, steps[0]), steps[1..]);
      }
    }
  }

  /** A turn forwards its transfer's data exactly when the transfer passes
      the gate. */
  lemma TurnForwardsGated(s: WorkerState, step: Step)
    ensures Packets(Turn(s, step).outbox) == Packets(s.outbox) + Gated([step])
  {
    var s1 := if step.disconnect.Some? then DisconnectSpec(s, step.disconnect.value) else s;
    var r := Turn(s, step);
    assert Packets(s1.outbox) == Packets(s.outbox) by {
      if step.disconnect.Some? {
        PacketsAppend(s.outbox, s1.outbox[|s.outbox|..]);
        assert s.outbox + s1.outbox[|s.outbox|..] == s1.outbox;
      }
    }
    assert s1.outbox <= r.outbox;
    PacketsAppend(s1.outbox, r.outbox[|s1.outbox|..]);
    assert s1.outbox + r.outbox[|s1.outbox|..] == r.outbox;
    assert [step][1..] == [];
  }

  /** The loop forwards exactly the transfers that pass the gate among the
      ones it awaits, byte for byte and in order; nothing else becomes an
      ENCRYPTED_DATA message. */
  lemma {:induction false} ListenForwardsExactlyGated(s: WorkerState, steps: seq<Step>)
    requires !s.stopListening && s.device.Some?
    ensures Packets(ListenFrom(s, steps).outbox) == Packets(s.outbox) + Gated(steps[..Consumed(steps)])
    decreases |steps|
  {
    if steps != [] {
      var step := steps[0];
      var n := Consumed(steps);
      assert steps[..n] == [step] + steps[1..][..n - 1];
      GatedAppend([step], steps[1..][..n - 1]);
      TurnForwardsGated(s, step);
      TurnAppendsOnly(s, step);
      if !EndsLoop(step) {
        ListenForwardsExactlyGated(Turn(s, step), steps[1..]);
      }
    }
  }

  /** An ERROR posted by the read loop itself. */
  predicate IsTransferError(m: Message) {
    m.Error? && "Transfer error: " <= m.text
  }

  /** The loop left because its last awaited transfer failed while the stop
      flag was still clear. */
  predicate ExitsOnTransferError(steps: seq<Step>) {
    var n := Consumed(steps);
    n > 0 && steps[n - 1].outcome.Failed? && steps[n - 1].disconnect.None?
  }

  function TransferErrors(out: seq<Message>): seq<Message> {
    if out == [] then []
    else (if IsTransferError(out[0]) then [out[0]] else []) + TransferErrors(out[1..])
  }

  lemma {:induction false} TransferErrorsAppend(a: seq<Message>, b: seq<Message>)
    ensures TransferErrors(a + b) == TransferErrors(a) + TransferErrors(b)
  {
    if a != [] {
      assert (a + b)[1..] == a[1..] + b;
      TransferErrorsAppend(a[1..], b);
    } else {
      assert a + b == b;
    }
  }

  /** What a disconnect posts is never a transfer error. */
  lemma DisconnectPostsNoTransferError(s: WorkerState, close: Awaited<()>)
    ensures s.outbox <= DisconnectSpec(s, close).outbox
    ensures TransferErrors(DisconnectSpec(s, close).outbox) == TransferErrors(s.outbox)
  {
    var r := DisconnectSpec(s, close);
    var tail := r.outbox[|s.outbox|..];
    assert s.outbox + tail == r.outbox;
    TransferErrorsAppend(s.outbox, tail);
    if tail != [] {
      assert tail[1..] == [];
      if close.Rejected? {
        assert tail[0].text[0] == 'D';
      }
    }
  }

  /** The transfer error a turn posts, if any: only for a failed transfer
      during which no disconnect happened, and then as its last message. */
  lemma TurnReportsFailure(s: WorkerState, step: Step)
    requires !s.stopListening
    ensures var r := Turn(s, step);
      && TransferErrors(r.outbox) == TransferErrors(s.outbox) +
           (if step.outcome.Failed? && step.disconnect.None? then [Error("Transfer error: " + step.outcome.message)] else [])
      && (step.outcome.Failed? && step.disconnect.None? ==>
            |r.outbox| > 0 && r.outbox[|r.outbox| - 1] == Error("Transfer error: " + step.outcome.message))
  {
    var s1 := if step.disconnect.Some? then DisconnectSpec(s, step.disconnect.value) else s;
    if step.disconnect.Some? {
      DisconnectPostsNoTransferError(s, step.disconnect.value);
    }
    var r := Turn(s, step);
    assert s1.outbox <= r.outbox;
    var tail := r.outbox[|s1.outbox|..];
    assert s1.outbox + tail == r.outbox;
    TransferErrorsAppend(s1.outbox, tail);
    if tail != [] {
      assert tail[1..] == [];
    }
  }

  /** The loop reports at most one transfer error: the one of the transfer
      that ended it, and only when the stop flag was clear at that moment;
      it is then the last message posted. */
  lemma {:induction false} ListenReportsOnlyFinalFailure(s: WorkerState, steps: seq<Step>)
    requires !s.stopListening && s.device.Some?
    ensures var r := ListenFrom(s, steps);
      && TransferErrors(r.outbox) == TransferErrors(s.outbox) +
           (if ExitsOnTransferError(steps) then [Error("Transfer error: " + steps[Consumed(steps) - 1].outcome.message)] else [])
      && (ExitsOnTransferError(steps) ==>
            |r.outbox| > 0 && r.outbox[|r.outbox| - 1] == Error("Transfer error: " + steps[Consumed(steps) - 1].outcome.message))
    decreases |steps|
  {
    if steps != [] {
      var step := steps[0];
      TurnReportsFailure(s, step);
      TurnAppendsOnly(s, step);
      if !EndsLoop(step) {
        ListenReportsOnlyFinalFailure(Turn(s, step), steps[1..]);
      }
    }
  }

  /** The messages one turn posts, from a state where the loop runs and
      holds `key`: the disconnect's message if one was handled meanwhile,
      then ENCRYPTED_DATA for a transfer that passes the gate (with no key
      once the disconnect dropped it), or a transfer error for a failed
      transfer when no disconnect happened, and nothing otherwise. */
  function TurnPosts(step: Step, key: Option<Bytes>): seq<Message> {
    (if step.disconnect.Some? then [CloseMessage(step.disconnect.value)] else [])
    + (if IsPacket(step.outcome) then [EncryptedData(step.outcome.data.value, if step.disconnect.Some? then None else key)]
       else if step.outcome.Failed? && step.disconnect.None? then [Error("Transfer error: " + step.outcome.message)]
       else [])
  }

  /** The messages of consecutive turns, in order. */
  function LoopPosts(steps: seq<Step>, key: Option<Bytes>): seq<Message> {
    if steps == [] then [] else TurnPosts(steps[0], key) + LoopPosts(steps[1..], key)
  }

  /** The last transfer the loop awaited was pending when a disconnect was
      handled. */
  predicate ClosedDuring(steps: seq<Step>) {
    var n := Consumed(steps);
    n > 0 && steps[n - 1].disconnect.Some?
  }

  /** One turn appends exactly `TurnPosts`; without a disconnect it keeps
      the device, the key and the loop running, with one it drops them. */
  lemma TurnOutbox(s: WorkerState, step: Step)
    requires !s.stopListening && s.device.Some?
    ensures Turn(s, step).outbox == s.outbox + TurnPosts(step, s.serialNumber)
    ensures step.disconnect.None? ==>
      Turn(s, step).serialNumber == s.serialNumber && Turn(s, step).device == s.device && !Turn(s, step).stopListening
    ensures step.disconnect.Some? ==>
      Turn(s, step).serialNumber.None? && Turn(s, step).device.None? && Turn(s, step).stopListening
  {
    if step.disconnect.Some? {
      var s1 := DisconnectSpec(s, step.disconnect.value);
      assert s1.outbox == s.outbox + [CloseMessage(step.disconnect.value)];
    }
  }

  /** The whole output of the read loop: everything it posts is the turns'
      messages over the transfers it awaits, with the key it started with;
      the key is dropped only by a disconnect during the last of them. */
  lemma {:induction false} ListenOutbox(s: WorkerState, steps: seq<Step>)
    requires !s.stopListening && s.device.Some?
    ensures ListenFrom(s, steps).outbox == s.outbox + LoopPosts(steps[..Consumed(steps)], s.serialNumber)
    ensures ListenFrom(s, steps).serialNumber == (if ClosedDuring(steps) then None else s.serialNumber)
    decreases |steps|
  {
    if steps == [] {
      assert steps[..0] == [];
    } else {
      var step := steps[0];
      var n := Consumed(steps);
      TurnOutbox(s, step);
      var t := Turn(s, step);
      assert steps[..n][0] == step && steps[..n][1..] == steps[1..][..n - 1];
      if EndsLoop(step) {
        assert n == 1 && steps[1..][..0] == [];
        assert ListenFrom(s, steps) == t;
      } else {
        ListenOutbox(t, steps[1..]);
        if Consumed(steps[1..]) > 0 {
          assert steps[n - 1] == steps[1..][Consumed(steps[1..]) - 1];
        }
      }
    }
  }

  // ---------------------------------------------------------------------
  // disconnect and onmessage

  /** `disconnect`: the stop flag is always set; only when a device is
      present is it closed, one message posted and the device and key
      dropped. */
  function DisconnectSpec(s: WorkerState, close: Awaited<()>): (r: WorkerState)
    ensures r.stopListening && r.device.None?
    ensures s.device.None? ==> r == s.(stopListening := true)
    ensures s.device.Some? ==> r.serialNumber.None? && |r.outbox| == |s.outbox| + 1 && s.outbox <= r.outbox
    ensures s.device.Some? ==> (r.outbox[|s.outbox|] == Disconnected <==> close.Resolved?)
    ensures s.device.Some? && close.Rejected? ==>
      r.outbox[|s.outbox|] == Error("Disconnect error: " + close.fault.message)
  {
    var stopped := s.(stopListening := true);
    if s.device.None? then stopped
    else Posted(stopped, CloseMessage(close)).(device := None, serialNumber := None)
  }

  /** What `disconnect` posts once `device.close()` settles. */
  function CloseMessage(close: Awaited<()>): Message {
    match close
    case Resolved(_) => Disconnected
    case Rejected(f) => Error("Disconnect error: " + f.message)
  }

  /** `onmessage`.  `getAndOpenDeviceFromStorage` posts REQUEST_DEVICE_INFO
      and always yields null, so CONNECT always goes through `connectUSB`. */
  function OnMessageSpec(s: WorkerState, request: Request, host: UsbHost): WorkerState {
    match request
    case ConnectRequest(vendorId, productIds) => ConnectSpec(Posted(s, RequestDeviceInfo), vendorId, productIds, host)
    case DisconnectRequest => DisconnectSpec(s, host.close)
    case DeviceInfoResponse => s
    case Unrecognised => s
  }

  /** From DEVICE_INFO on, `connectUSB` only appends to what was posted and
      never leaves a key without a device. */
  lemma KeySpecKeepsInvariant(s: WorkerState, d: UsbDevice, host: UsbHost)
    requires s.device.Some?
    ensures KeyOnlyWithDevice(KeySpec(s, d, host))
    ensures s.outbox <= KeySpec(s, d, host).outbox
  {
    var result := host.controlTransferIn(SerialDescriptorRequest(d.serialNumber));
    if result.Resolved? && result.value.Some? && host.transferOut(StartCommand()).Resolved? {
      var key := DerivedKey(host.userAgent, result.value.value, d.serialNumber);
      var s4 := Posted(Posted(s.(serialNumber := Some(key)), SerialNumber(key)), Connected(d.vendorId, d.productId));
      ListenAppendsOnly(s4.(stopListening := false), host.transfers);
    }
  }

  /** Every handler only appends to what was posted, and a key is never
      left behind without a device. */
  lemma OnMessageKeepsInvariant(s: WorkerState, request: Request, host: UsbHost)
    requires KeyOnlyWithDevice(s)
    ensures KeyOnlyWithDevice(OnMessageSpec(s, request, host))
    ensures s.outbox <= OnMessageSpec(s, request, host).outbox
  {
    if request.ConnectRequest? {
      var s0 := Posted(s, RequestDeviceInfo);
      match host.requestDevice(RequestFilters(request.vendorId, request.productIds))
      case Rejected(_) =>
      case Resolved(d) =>
        if SetupSucceeds(d, host) {
          KeySpecKeepsInvariant(Posted(s0.(device := Some(d)), DeviceInfoMessage(DeviceInfo(d.vendorId, d.productId, OrEmpty(d.serialNumber)))), d, host);
        }
    }
  }

  // ---------------------------------------------------------------------
  // The worker's module-level variables

  class Worker {
    var stopListening: bool
    var device: Option<UsbDevice>
    var serialNumber: Option<Bytes>
    var outbox: seq<Message>

    function State(): WorkerState
      reads this
    {
      WorkerState(stopListening, device, serialNumber, outbox)
    }

    constructor ()
      ensures State() == InitialWorker()
    {
      stopListening := false;
      device := None;
      serialNumber := None;
      outbox := [];
    }

    method PostMessage(m: Message)
      modifies this
      ensures State() == Posted(old(State()), m)
    {
      outbox := outbox + [m];
    }

    method Disconnect(close: Awaited<()>)
      modifies this
      ensures State() == DisconnectSpec(old(State()), close)
    {
      stopListening := true;
      if device.Some? {
        match close {
          case Resolved(_) =>
            PostMessage(Disconnected);
          case Rejected(f) =>
            PostMessage(Error("Disconnect error: " + f.message));
        }
        device := None;
        serialNumber := None;
      }
    }

    /** The body of the read loop for one settled transfer. */
    method TakeTurn(step: Step)
      modifies this
      ensures State() == Turn(old(State()), step)
    {
      if step.disconnect.Some? {
        Disconnect(step.disconnect.value);
      }
      match step.outcome {
        case Completed(_, data) =>
          if IsPacket(step.outcome) {
            PostMessage(EncryptedData(data.value, serialNumber));
          }
        case Failed(message) =>
          if !stopListening {
            PostMessage(Error("Transfer error: " + message));
          }
      }
    }

    method Listen(steps: seq<Step>)
      modifies this
      ensures State() == ListenSpec(old(State()), steps)
    {
      stopListening := false;
      var i := 0;
      while !stopListening && device.Some? && i < |steps|
        invariant 0 <= i <= |steps|
        invariant ListenFrom(State(), steps[i..]) == ListenSpec(old(State()), steps)
        decreases |steps| - i
      {
        assert steps[i..][0] == steps[i] && steps[i..][1..] == steps[i + 1..];
        TakeTurn(steps[i]);
        if steps[i].outcome.Failed? {
          break;
        }
        i := i + 1;
      }
    }

    method ConnectUsb(vendorId: nat, productIds: seq<nat>, host: UsbHost)
      modifies this
      ensures State() == ConnectSpec(old(State()), vendorId, productIds, host)
    {
      var chosen := host.requestDevice(RequestFilters(vendorId, productIds));
      if chosen.Rejected? {
        PostMessage(Error(ConnectionErrorText(chosen.fault)));
        return;
      }
      var d := chosen.value;
      device := Some(d);
      if host.open.Rejected? {
        PostMessage(Error(ConnectionErrorText(host.open.fault)));
        return;
      }
      if !d.configured && host.selectConfiguration.Rejected? {
        PostMessage(Error(ConnectionErrorText(host.selectConfiguration.fault)));
        return;
      }
      if host.claimInterface.Rejected? {
        PostMessage(Error(ConnectionErrorText(host.claimInterface.fault)));
        return;
      }
      PostMessage(DeviceInfoMessage(DeviceInfo(d.vendorId, d.productId, OrEmpty(d.serialNumber))));
      ReadKeyAndListen(d, host);
    }

    /** `connectUSB` from the control transfer on. */
    method ReadKeyAndListen(d: UsbDevice, host: UsbHost)
      modifies this
      ensures State() == KeySpec(old(State()), d, host)
    {
      var result := host.controlTransferIn(SerialDescriptorRequest(d.serialNumber));
      if result.Rejected? {
        PostMessage(Error(ConnectionErrorText(result.fault)));
        return;
      }
      if result.value.None? {
        PostMessage(Error(ConnectionErrorText(NoDataFault)));
        return;
      }
      var serialNumberArray: Bytes;
      if GetOs(host.userAgent) == "windows" {
        serialNumberArray := CollectWindowsKey(result.value.value);
      } else {
        serialNumberArray := CharCodeKey(OrEmpty(d.serialNumber));
      }
      serialNumber := Some(serialNumberArray);
      PostMessage(SerialNumber(serialNumberArray));
      var sent := host.transferOut(StartCommand());
      if sent.Rejected? {
        PostMessage(Error(ConnectionErrorText(sent.fault)));
        return;
      }
      PostMessage(Connected(d.vendorId, d.productId));
      Listen(host.transfers);
    }

    method OnMessage(request: Request, host: UsbHost)
      modifies this
      ensures State() == OnMessageSpec(old(State()), request, host)
    {
      match request {
        case ConnectRequest(vendorId, productIds) =>
          PostMessage(RequestDeviceInfo);
          ConnectUsb(vendorId, productIds, host);
        case DisconnectRequest =>
          Disconnect(host.close);
        case DeviceInfoResponse =>
        case Unrecognised =>
      }
    }
  }
}
