/** The Web Serial worker of src/workers/usbWorker.ts.

    The worker keeps two module-level variables (`port`, `serial_number`)
    and posts messages to the page.  As for the WebUSB worker, that state is
    `WorkerState` with the posted messages as `outbox`, each handler is a
    state-transition function, and class `Worker` holds the variables as
    fields with methods proved against those functions.  The port, the
    stream reader, the `snappy-remote` decryption and `JSON.parse` are
    inputs: `decrypt` and `parse` are arbitrary functions, and the reader
    hands back a finite list of reads. */
module UsbWorker {
  import opened Common

  const BaudRate: nat := 9600

  datatype PortInfo = PortInfo(usbVendorId: Option<nat>, usbProductId: Option<nat>, usbSerialNumber: Option<string>)

  /** A Web Serial port; `readable` and `writable` say whether its streams
      are present. */
  datatype SerialPort = SerialPort(info: PortInfo, readable: bool, writable: bool)

  /** What the wasm `decrypt` returns: a string, some other value, or it
      throws. */
  datatype Decrypted = Text(text: string) | NotText | Threw(message: string)

  /** How one `await reader.read()` settles. */
  datatype Read = Chunk(value: Option<Bytes>) | Done | ReadFailed(message: string)

  /** The messages the worker posts, by their `type`; `J` is whatever
      `JSON.parse` produces. */
  datatype Message<J> =
    | InitSuccess
    | Connected(vendorId: Option<nat>, productId: Option<nat>, serialNumber: Option<string>)
    | Disconnected
    | RemoteFound(payload: J)
    | Error(text: string)

  /** The messages the worker handles, by their `type`. */
  datatype Request = Init | Connect(port: Option<SerialPort>) | Disconnect | Unrecognised

  /** The answers of everything outside the worker's own code. */
  datatype SerialHost<J> = SerialHost(
    init: Awaited<()>,
    open: nat -> Awaited<()>,
    write: Bytes -> Awaited<()>,
    incoming: seq<Read>,
    decrypt: (Bytes, Bytes) -> Decrypted,
    parse: string -> Option<J>)

  datatype WorkerState<J> = WorkerState(port: Option<SerialPort>, serialNumber: Option<Bytes>, outbox: seq<Message<J>>)

  function Posted<J>(s: WorkerState<J>, m: Message<J>): WorkerState<J> {
    s.(outbox := s.outbox + [m])
  }

  // ---------------------------------------------------------------------
  // String.prototype.trim

  /** The characters `trim` removes: ECMAScript's WhiteSpace and
      LineTerminator. */
  predicate IsJsWhitespace(c: char) {
    var u := c as int;
    u == 0x09 || u == 0x0A || u == 0x0B || u == 0x0C || u == 0x0D || u == 0x20
    || u == 0xA0 || u == 0x1680 || (0x2000 <= u <= 0x200A) || u == 0x2028 || u == 0x2029
    || u == 0x202F || u == 0x205F || u == 0x3000 || u == 0xFEFF
  }

  /** Leading white space removed. */
  function TrimStart(s: string): string
    decreases |s|
  {
    if s != [] && IsJsWhitespace(s[0]) then TrimStart(s[1..]) else s
  }

  /** Trailing white space removed. */
  function TrimEnd(s: string): string
    decreases |s|
  {
    if s != [] && IsJsWhitespace(s[|s| - 1]) then TrimEnd(s[..|s| - 1]) else s
  }

  /** `TrimStart` keeps a suffix, removes only white space, and what it
      keeps does not start with white space. */
  lemma {:induction false} TrimStartSuffix(s: string)
    ensures |TrimStart(s)| <= |s| && TrimStart(s) == s[|s| - |TrimStart(s)|..]
    ensures forall j :: 0 <= j < |s| - |TrimStart(s)| ==> IsJsWhitespace(s[j])
    ensures TrimStart(s) != [] ==> !IsJsWhitespace(TrimStart(s)[0])
    decreases |s|
  {
    if s != [] && IsJsWhitespace(s[0]) {
      TrimStartSuffix(s[1..]);
      assert s[1..][|s[1..]| - |TrimStart(s)|..] == s[|s| - |TrimStart(s)|..];
      forall j | 1 <= j < |s| - |TrimStart(s)|
        ensures IsJsWhitespace(s[j])
      {
        assert s[j] == s[1..][j - 1];
      }
    }
  }

  /** `TrimEnd` keeps a prefix, removes only white space, and what it keeps
      does not end with white space. */
  lemma {:induction false} TrimEndPrefix(s: string)
    ensures |TrimEnd(s)| <= |s| && TrimEnd(s) == s[..|TrimEnd(s)|]
    ensures forall j :: |TrimEnd(s)| <= j < |s| ==> IsJsWhitespace(s[j])
    ensures TrimEnd(s) != [] ==> !IsJsWhitespace(TrimEnd(s)[|TrimEnd(s)| - 1])
    decreases |s|
  {
    if s != [] && IsJsWhitespace(s[|s| - 1]) {
      var t := s[..|s| - 1];
      TrimEndPrefix(t);
      assert t[..|TrimEnd(s)|] == s[..|TrimEnd(s)|];
      forall j | |TrimEnd(s)| <= j < |s| - 1
        ensures IsJsWhitespace(s[j])
      {
        assert s[j] == t[j];
      }
    }
  }

  /** `String.prototype.trim`. */
  function Trim(s: string): string {
    TrimEnd(TrimStart(s))
  }

  /** Trimming keeps the part of `s` between its leading and its trailing
      white space, and that part neither starts nor ends with white space. */
  lemma TrimKeepsInnerPart(s: string)
    ensures var k := |s| - |TrimStart(s)|;
      var r := Trim(s);
      && 0 <= k && k + |r| <= |s| && r == s[k..k + |r|]
      && (forall j :: 0 <= j < k ==> IsJsWhitespace(s[j]))
      && (forall j :: k + |r| <= j < |s| ==> IsJsWhitespace(s[j]))
      && (r != [] ==> !IsJsWhitespace(r[0]) && !IsJsWhitespace(r[|r| - 1]))
  {
    var u := TrimStart(s);
    var k := |s| - |u|;
    var r := TrimEnd(u);
    TrimStartSuffix(s);
    TrimEndPrefix(u);
    assert u == s[k..] && r == u[..|r|];
    forall j | k + |r| <= j < |s|
      ensures IsJsWhitespace(s[j])
    {
      assert s[j] == u[j - k];
    }
  }

  /** `answer.trim().startsWith("{")` */
  predicate StartsWithBrace(answer: string) {
    var t := Trim(answer);
    |t| > 0 && t[0] == '{'
  }

  /** Trimming both ends and then looking at the first character is the
      same as asking whether the first character that is not white space is
      an opening brace. */
  lemma TrimmedStartsWithBrace(answer: string)
    ensures StartsWithBrace(answer) <==>
      exists i :: 0 <= i < |answer| && answer[i] == '{' && forall j :: 0 <= j < i ==> IsJsWhitespace(answer[j])
  {
    var u := TrimStart(answer);
    var k := |answer| - |u|;
    var v := TrimEnd(u);
    TrimStartSuffix(answer);
    TrimEndPrefix(u);
    if u != [] {
      assert v != [] && v[0] == u[0] == answer[k];
    }
    if StartsWithBrace(answer) {
      assert answer[k] == '{';
    }
    if i :| 0 <= i < |answer| && answer[i] == '{' && forall j :: 0 <= j < i ==> IsJsWhitespace(answer[j]) {
      assert !IsJsWhitespace(answer[i]);
      assert k <= i;
      assert u != [] && u[0] == answer[k];
      assert k == i;
    }
  }

  // ---------------------------------------------------------------------
  // listenLoop

  /** What one read contributes: the messages it posts and whether the loop
      reads again. */
  datatype Handled<J> = Handled(posted: seq<Message<J>>, goesOn: bool)

  /** One turn of the loop: only a 17-byte chunk is decrypted, and only a
      string answer whose trimmed form starts with a brace and that parses
      is posted.  A read that is done ends the loop quietly; a failed read
      or a throwing decryption ends it with an ERROR. */
  function HandleRead<J>(key: Bytes, read: Read, decrypt: (Bytes, Bytes) -> Decrypted, parse: string -> Option<J>): Handled<J> {
    match read
    case Done => Handled([], false)
    case ReadFailed(message) => Handled([Error(message)], false)
    case Chunk(value) =>
      if value.None? || |value.value| != PacketSize then Handled([], true)
      else
        match decrypt(key, value.value)
        case Threw(message) => Handled([Error(message)], false)
        case NotText => Handled([], true)
        case Text(answer) =>
          if StartsWithBrace(answer) && parse(answer).Some? then Handled([RemoteFound(parse(answer).value)], true)
          else Handled([], true)
  }

  /** Everything the loop posts while it consumes `incoming`. */
  function ReadAll<J>(key: Bytes, incoming: seq<Read>, decrypt: (Bytes, Bytes) -> Decrypted, parse: string -> Option<J>): seq<Message<J>> {
    if incoming == [] then []
    else
      var handled := HandleRead(key, incoming[0], decrypt, parse);
      handled.posted + (if handled.goesOn then ReadAll(key, incoming[1..], decrypt, parse) else [])
  }

  lemma ReadAllFrom<J>(key: Bytes, incoming: seq<Read>, i: nat,
                       decrypt: (Bytes, Bytes) -> Decrypted, parse: string -> Option<J>)
    requires i < |incoming|
    ensures var handled := HandleRead(key, incoming[i], decrypt, parse);
      ReadAll(key, incoming[i..], decrypt, parse)
        == handled.posted + (if handled.goesOn then ReadAll(key, incoming[i + 1..], decrypt, parse) else [])
  {
    assert incoming[i..][0] == incoming[i] && incoming[i..][1..] == incoming[i + 1..];
  }

  /** Posting one read's messages keeps what is posted so far, followed by
      what the remaining reads will post, equal to the whole output. */
  lemma AppendHandled<J>(before: seq<Message<J>>, current: seq<Message<J>>, handled: Handled<J>, rest: seq<Message<J>>)
    requires current == handled.posted + (if handled.goesOn then rest else [])
    ensures handled.goesOn ==> (before + handled.posted) + rest == before + current
    ensures !handled.goesOn ==> before + handled.posted == before + current
  {
    if !handled.goesOn {
      assert current == handled.posted;
    }
  }

  /** `listenLoop`: it does not read at all without a port, a key or a
      readable stream. */
  function ListenLoopSpec<J>(s: WorkerState<J>, host: SerialHost<J>): WorkerState<J> {
    if s.port.None? || s.serialNumber.None? || !s.port.value.readable then s
    else s.(outbox := s.outbox + ReadAll(s.serialNumber.value, host.incoming, host.decrypt, host.parse))
  }

  /** Only 17-byte chunks reach `decrypt`: what it does on any other input
      never shows in the output. */
  lemma {:induction false} OnlyPacketsReachDecrypt<J>(key: Bytes, incoming: seq<Read>,
                                                      decrypt: (Bytes, Bytes) -> Decrypted,
                                                      decrypt': (Bytes, Bytes) -> Decrypted,
                                                      parse: string -> Option<J>)
    requires forall packet: Bytes :: |packet| == PacketSize ==> decrypt(key, packet) == decrypt'(key, packet)
    ensures ReadAll(key, incoming, decrypt, parse) == ReadAll(key, incoming, decrypt', parse)
  {
    if incoming != [] {
      var read := incoming[0];
      if read.Chunk? && read.value.Some? && |read.value.value| == PacketSize {
        assert decrypt(key, read.value.value) == decrypt'(key, read.value.value);
      }
      assert HandleRead(key, read, decrypt, parse) == HandleRead(key, read, decrypt', parse);
      OnlyPacketsReachDecrypt(key, incoming[1..], decrypt, decrypt', parse);
    }
  }

  /** What a read yields: the payload of a 17-byte chunk whose decryption is
      a string that starts, once trimmed, with a brace and that parses. */
  function Decode<J>(key: Bytes, read: Read, decrypt: (Bytes, Bytes) -> Decrypted, parse: string -> Option<J>): Option<J> {
    if read.Chunk? && read.value.Some? && |read.value.value| == PacketSize then
      match decrypt(key, read.value.value)
      case Text(answer) => if StartsWithBrace(answer) then parse(answer) else None
      case _ => None
    else None
  }

  /** The error a read reports: a failed read's own, or the exception thrown
      while decrypting a 17-byte chunk. */
  function FailureText(key: Bytes, read: Read, decrypt: (Bytes, Bytes) -> Decrypted): Option<string> {
    match read
    case ReadFailed(message) => Some(message)
    case Done => None
    case Chunk(value) =>
      if value.Some? && |value.value| == PacketSize && decrypt(key, value.value).Threw? then
        Some(decrypt(key, value.value).message)
      else None
  }

  /** The reads after which the loop stops: the stream is done, or a read
      reports an error. */
  predicate EndsReading(key: Bytes, read: Read, decrypt: (Bytes, Bytes) -> Decrypted) {
    read.Done? || FailureText(key, read, decrypt).Some?
  }

  /** The payload of one read, as a sequence of zero or one. */
  function Found<J>(key: Bytes, read: Read, decrypt: (Bytes, Bytes) -> Decrypted, parse: string -> Option<J>): seq<J> {
    if Decode(key, read, decrypt, parse).Some? then [Decode(key, read, decrypt, parse).value] else []
  }

  /** The ERROR one read reports, as a sequence of zero or one. */
  function FailurePosts<J>(key: Bytes, read: Read, decrypt: (Bytes, Bytes) -> Decrypted): seq<Message<J>> {
    if FailureText(key, read, decrypt).Some? then [Error(FailureText(key, read, decrypt).value)] else []
  }

  /** One turn agrees with the definitions above: it posts the read's
      payload, then its error, and goes on unless the read ends the loop.  A
      chunk that is missing or not 17 bytes long is skipped. */
  lemma HandleReadAgrees<J>(key: Bytes, read: Read, decrypt: (Bytes, Bytes) -> Decrypted, parse: string -> Option<J>)
    ensures HandleRead(key, read, decrypt, parse).goesOn == !EndsReading(key, read, decrypt)
    ensures HandleRead(key, read, decrypt, parse).posted
      == RemoteFounds(Found(key, read, decrypt, parse)) + FailurePosts(key, read, decrypt)
    ensures Decode(key, read, decrypt, parse).Some? ==> !EndsReading(key, read, decrypt)
    ensures read.Chunk? && (read.value.None? || |read.value.value| != PacketSize) ==>
      HandleRead(key, read, decrypt, parse) == Handled([], true)
  {
  }

  /** How many reads the loop awaits: up to and including the first one that
      ends it, or all of them. */
  function ReadsConsumed(key: Bytes, incoming: seq<Read>, decrypt: (Bytes, Bytes) -> Decrypted): (n: nat)
    ensures n <= |incoming|
    ensures forall i :: 0 <= i < n - 1 ==> !EndsReading(key, incoming[i], decrypt)
    ensures n < |incoming| ==> n > 0 && EndsReading(key, incoming[n - 1], decrypt)
  {
    if incoming == [] then 0
    else if EndsReading(key, incoming[0], decrypt) then 1
    else 1 + ReadsConsumed(key, incoming[1..], decrypt)
  }

  /** The payloads of `awaited`, in order, skipping the reads that yield none. */
  function Decoded<J>(key: Bytes, awaited: seq<Read>, decrypt: (Bytes, Bytes) -> Decrypted, parse: string -> Option<J>): seq<J> {
    if awaited == [] then [] else Found(key, awaited[0], decrypt, parse) + Decoded(key, awaited[1..], decrypt, parse)
  }

  /** The ERROR of the last read the loop awaits, if it reported one. */
  function LastFailure<J>(key: Bytes, incoming: seq<Read>, decrypt: (Bytes, Bytes) -> Decrypted): seq<Message<J>> {
    var n := ReadsConsumed(key, incoming, decrypt);
    if n == 0 then [] else FailurePosts(key, incoming[n - 1], decrypt)
  }

  /** One REMOTE_FOUND per payload. */
  function RemoteFounds<J>(payloads: seq<J>): (r: seq<Message<J>>)
    ensures |r| == |payloads|
    ensures forall i :: 0 <= i < |r| ==> r[i] == RemoteFound(payloads[i])
  {
    seq(|payloads|, i requires 0 <= i < |payloads| => RemoteFound(payloads[i]))
  }

  lemma RemoteFoundsAppend<J>(a: seq<J>, b: seq<J>)
    ensures RemoteFounds(a + b) == RemoteFounds(a) + RemoteFounds(b)
  {
  }

  /** Past a read that does not end the loop, the awaited reads are that
      read and the ones awaited after it, and the final error is unchanged. */
  lemma ConsumedStep<J>(key: Bytes, incoming: seq<Read>, decrypt: (Bytes, Bytes) -> Decrypted, parse: string -> Option<J>)
    requires incoming != [] && !EndsReading(key, incoming[0], decrypt)
    ensures var n := ReadsConsumed(key, incoming, decrypt);
      var m := ReadsConsumed(key, incoming[1..], decrypt);
      Decoded(key, incoming[..n], decrypt, parse)
        == Found(key, incoming[0], decrypt, parse) + Decoded(key, incoming[1..][..m], decrypt, parse)
    ensures LastFailure<J>(key, incoming, decrypt) == LastFailure<J>(key, incoming[1..], decrypt)
  {
    var n := ReadsConsumed(key, incoming, decrypt);
    var m := ReadsConsumed(key, incoming[1..], decrypt);
    assert incoming[..n][0] == incoming[0];
    assert incoming[..n][1..] == incoming[1..][..m];
    if m > 0 {
      assert incoming[n - 1] == incoming[1..][m - 1];
    }
  }

  /** After a first read that does not end the loop, the loop posts that
      read's payload and goes on with the rest. */
  lemma ReadOnwards<J>(key: Bytes, incoming: seq<Read>, decrypt: (Bytes, Bytes) -> Decrypted, parse: string -> Option<J>)
    requires incoming != [] && !EndsReading(key, incoming[0], decrypt)
    ensures ReadAll(key, incoming, decrypt, parse)
      == RemoteFounds(Found(key, incoming[0], decrypt, parse)) + ReadAll(key, incoming[1..], decrypt, parse)
  {
    var handled := HandleRead(key, incoming[0], decrypt, parse);
    HandleReadAgrees(key, incoming[0], decrypt, parse);
    var found := RemoteFounds(Found(key, incoming[0], decrypt, parse));
    assert FailurePosts<J>(key, incoming[0], decrypt) == [];
    assert handled.goesOn && handled.posted == found + [];
    assert found + [] == found;
    assert ReadAll(key, incoming, decrypt, parse) == handled.posted + ReadAll(key, incoming[1..], decrypt, parse);
  }

  /** A first read that ends the loop is the only one awaited, and it
      yields no payload. */
  lemma LastReadPosts<J>(key: Bytes, incoming: seq<Read>, decrypt: (Bytes, Bytes) -> Decrypted, parse: string -> Option<J>)
    requires incoming != [] && EndsReading(key, incoming[0], decrypt)
    ensures ReadAll(key, incoming, decrypt, parse)
      == RemoteFounds(Decoded(key, incoming[..ReadsConsumed(key, incoming, decrypt)], decrypt, parse))
         + LastFailure(key, incoming, decrypt)
  {
    var read := incoming[0];
    HandleReadAgrees(key, read, decrypt, parse);
    assert incoming[..1] == [read] && [read][1..] == [];
    assert Decoded(key, [read], decrypt, parse) == [];
    assert ReadAll(key, incoming, decrypt, parse) == FailurePosts(key, read, decrypt);
  }

  /** The output of a read that does not end the loop, before that of the
      reads after it. */
  lemma Combine<J>(out: seq<Message<J>>, restOut: seq<Message<J>>, found: seq<J>, later: seq<J>,
                   payloads: seq<J>, failure: seq<Message<J>>)
    requires out == RemoteFounds(found) + restOut
    requires restOut == RemoteFounds(later) + failure
    requires payloads == found + later
    ensures out == RemoteFounds(payloads) + failure
  {
    RemoteFoundsAppend(found, later);
  }

  /** The whole output of the loop: one REMOTE_FOUND per payload among the
      reads it awaits, in order, and then the error of the read that ended
      it, if that read reported one. */
  lemma {:induction false} ReadAllPostsDecoded<J>(key: Bytes, incoming: seq<Read>,
                                                  decrypt: (Bytes, Bytes) -> Decrypted,
                                                  parse: string -> Option<J>)
    ensures ReadAll(key, incoming, decrypt, parse)
      == RemoteFounds(Decoded(key, incoming[..ReadsConsumed(key, incoming, decrypt)], decrypt, parse))
         + LastFailure(key, incoming, decrypt)
  {
    if incoming == [] {
      assert incoming[..0] == [];
    } else {
      var read := incoming[0];
      if EndsReading(key, read, decrypt) {
        LastReadPosts(key, incoming, decrypt, parse);
      } else {
        var rest := incoming[1..];
        var m := ReadsConsumed(key, rest, decrypt);
        var found := Found(key, read, decrypt, parse);
        var later := Decoded(key, rest[..m], decrypt, parse);
        ReadOnwards(key, incoming, decrypt, parse);
        ReadAllPostsDecoded(key, rest, decrypt, parse);
        ConsumedStep(key, incoming, decrypt, parse);
        Combine(ReadAll(key, incoming, decrypt, parse), ReadAll(key, rest, decrypt, parse), found, later,
                Decoded(key, incoming[..ReadsConsumed(key, incoming, decrypt)], decrypt, parse), LastFailure(key, rest, decrypt));
      }
    }
  }

  /** In particular the REMOTE_FOUND payloads, in order, are exactly the
      payloads of the reads the loop awaits, and anything after them is an
      ERROR. */
  lemma RemoteFoundsAreDecodedReads<J>(key: Bytes, incoming: seq<Read>,
                                       decrypt: (Bytes, Bytes) -> Decrypted,
                                       parse: string -> Option<J>)
    ensures var out := ReadAll(key, incoming, decrypt, parse);
      var payloads := Decoded(key, incoming[..ReadsConsumed(key, incoming, decrypt)], decrypt, parse);
      && |payloads| <= |out| <= |payloads| + 1
      && (forall i :: 0 <= i < |payloads| ==> out[i] == RemoteFound(payloads[i]))
      && (forall i :: |payloads| <= i < |out| ==> out[i].Error?)
  {
    ReadAllPostsDecoded(key, incoming, decrypt, parse);
  }

  /** No state is carried from one read to the next: the loop's output on
      two stretches of incoming is its output on the first followed by its
      output on the second, as long as the first does not end the loop. */
  lemma {:induction false} ReadsAreIndependent<J>(key: Bytes, first: seq<Read>, second: seq<Read>,
                                                  decrypt: (Bytes, Bytes) -> Decrypted,
                                                  parse: string -> Option<J>)
    requires forall i :: 0 <= i < |first| ==> HandleRead(key, first[i], decrypt, parse).goesOn
    ensures ReadAll(key, first + second, decrypt, parse) == ReadAll(key, first, decrypt, parse) + ReadAll(key, second, decrypt, parse)
  {
    if first == [] {
      assert first + second == second;
    } else {
      assert (first + second)[0] == first[0];
      assert (first + second)[1..] == first[1..] + second;
      ReadsAreIndependent(key, first[1..], second, decrypt, parse);
    }
  }

  /** A packet split across two incoming is never reassembled: neither piece
      is 17 bytes long, so nothing is posted. */
  lemma SplitPacketIsDropped<J>(key: Bytes, packet: Bytes, cut: nat,
                                decrypt: (Bytes, Bytes) -> Decrypted, parse: string -> Option<J>)
    requires |packet| == PacketSize && 0 < cut < PacketSize
    ensures ReadAll(key, [Chunk(Some(packet[..cut])), Chunk(Some(packet[cut..]))], decrypt, parse) == []
  {
    var pieces := [Chunk(Some(packet[..cut])), Chunk(Some(packet[cut..]))];
    assert pieces[1..] == [Chunk(Some(packet[cut..]))];
    assert pieces[1..][1..] == [];
    assert |packet[..cut]| != PacketSize && |packet[cut..]| != PacketSize;
    assert HandleRead(key, pieces[0], decrypt, parse) == Handled([], true);
    assert HandleRead(key, pieces[1], decrypt, parse) == Handled([], true);
    assert ReadAll(key, pieces[1..], decrypt, parse) == [];
  }

  // ---------------------------------------------------------------------
  // onmessage

  /** INIT: exactly one message, INIT_SUCCESS iff the module loaded; the
      port and key are untouched. */
  function InitSpec<J>(s: WorkerState<J>, host: SerialHost<J>): (r: WorkerState<J>)
    ensures r.port == s.port && r.serialNumber == s.serialNumber
    ensures |r.outbox| == |s.outbox| + 1 && s.outbox <= r.outbox
    ensures r.outbox[|s.outbox|] == InitSuccess <==> host.init.Resolved?
    ensures host.init.Rejected? ==> r.outbox[|s.outbox|] == Error(host.init.fault.message)
  {
    match host.init
    case Resolved(_) => Posted(s, InitSuccess)
    case Rejected(f) => Posted(s, Error(f.message))
  }

  /** CONNECT: without a port nothing but an ERROR happens; the key and the
      port are stored only once the port opens. */
  function ConnectSpec<J>(s: WorkerState<J>, selected: Option<SerialPort>, host: SerialHost<J>): (r: WorkerState<J>)
    ensures s.outbox <= r.outbox
    ensures selected.None? ==> r == Posted(s, Error("Serial port not received in worker."))
    ensures r.port != s.port || r.serialNumber != s.serialNumber ==>
      selected.Some? && host.open(BaudRate).Resolved? && r.port == selected &&
      r.serialNumber == Some(CharCodeKey(OrEmpty(selected.value.info.usbSerialNumber)))
    ensures selected.Some? && host.open(BaudRate).Rejected? ==> r == Posted(s, Error(host.open(BaudRate).fault.message))
    ensures selected.Some? && host.open(BaudRate).Resolved? ==>
      var p := selected.value;
      var key := CharCodeKey(OrEmpty(p.info.usbSerialNumber));
      && r.port == selected && r.serialNumber == Some(key)
      && r.outbox == s.outbox + [Connected(p.info.usbVendorId, p.info.usbProductId, p.info.usbSerialNumber)]
                     + (if p.writable && host.write(StartCommand()).Rejected? then [Error(host.write(StartCommand()).fault.message)]
                        else if p.readable then ReadAll(key, host.incoming, host.decrypt, host.parse)
                        else [])
  {
    match selected
    case None => Posted(s, Error("Serial port not received in worker."))
    case Some(p) =>
      match host.open(BaudRate)
      case Rejected(f) => Posted(s, Error(f.message))
      case Resolved(_) =>
        var s1 := s.(serialNumber := Some(CharCodeKey(OrEmpty(p.info.usbSerialNumber))), port := Some(p));
        var s2 := Posted(s1, Connected(p.info.usbVendorId, p.info.usbProductId, p.info.usbSerialNumber));
        if p.writable && host.write(StartCommand()).Rejected? then Posted(s2, Error(host.write(StartCommand()).fault.message))
        else ListenLoopSpec(s2, host)
  }

  /** DISCONNECT: the port and key are always dropped, and DISCONNECTED is
      posted exactly when a port was held, whether or not closing it
      worked. */
  function DisconnectSpec<J>(s: WorkerState<J>): (r: WorkerState<J>)
    ensures r.port.None? && r.serialNumber.None?
    ensures s.outbox <= r.outbox
    ensures |r.outbox| == |s.outbox| + (if s.port.Some? then 1 else 0)
    ensures s.port.Some? ==> r.outbox[|s.outbox|] == Disconnected
  {
    var closed := if s.port.Some? then Posted(s, Disconnected) else s;
    closed.(port := None, serialNumber := None)
  }

  function OnMessageSpec<J>(s: WorkerState<J>, request: Request, host: SerialHost<J>): WorkerState<J> {
    match request
    case Init => InitSpec(s, host)
    case Connect(selected) => ConnectSpec(s, selected, host)
    case Disconnect => DisconnectSpec(s)
    case Unrecognised => s
  }

  // ---------------------------------------------------------------------
  // The worker's module-level variables

  class Worker<J> {
    var port: Option<SerialPort>
    var serialNumber: Option<Bytes>
    var outbox: seq<Message<J>>

    function State(): WorkerState<J>
      reads this
    {
      WorkerState(port, serialNumber, outbox)
    }

    constructor ()
      ensures State() == WorkerState(None, None, [])
    {
      port := None;
      serialNumber := None;
      outbox := [];
    }

    method PostMessage(m: Message<J>)
      modifies this
      ensures State() == Posted(old(State()), m)
    {
      outbox := outbox + [m];
    }

    /** The body of `listenLoop`'s loop for one settled read: it posts what
        `HandleRead` says and reports whether the loop reads again. */
    method Receive(key: Bytes, read: Read, host: SerialHost<J>) returns (goesOn: bool)
      modifies this
      ensures port == old(port) && serialNumber == old(serialNumber)
      ensures outbox == old(outbox) + HandleRead(key, read, host.decrypt, host.parse).posted
      ensures goesOn == HandleRead(key, read, host.decrypt, host.parse).goesOn
    {
      goesOn := true;
      match read {
        case Done =>
          goesOn := false;
        case ReadFailed(message) =>
          PostMessage(Error(message));
          goesOn := false;
        case Chunk(value) =>
          if value.Some? && |value.value| == PacketSize {
            var answer := host.decrypt(key, value.value);
            match answer {
              case Threw(message) =>
                PostMessage(Error(message));
                goesOn := false;
              case NotText =>
              case Text(text) =>
                if StartsWithBrace(text) {
                  var json := host.parse(text);
                  if json.Some? {
                    PostMessage(RemoteFound(json.value));
                  }
                }
            }
          }
      }
    }

    /** The `while` loop of `listenLoop`: it reads until a read ends it or
        the reads run out, posting what each read yields. */
    method ReadLoop(key: Bytes, incoming: seq<Read>, host: SerialHost<J>)
      modifies this
      ensures port == old(port) && serialNumber == old(serialNumber)
      ensures outbox == old(outbox) + ReadAll(key, incoming, host.decrypt, host.parse)
    {
      ghost var posted := old(outbox) + ReadAll(key, incoming, host.decrypt, host.parse);
      assert incoming[0..] == incoming;
      var i := 0;
      var goesOn := true;
      while goesOn && i < |incoming|
        invariant 0 <= i <= |incoming|
        invariant port == old(port) && serialNumber == old(serialNumber)
        invariant goesOn ==> outbox + ReadAll(key, incoming[i..], host.decrypt, host.parse) == posted
        invariant !goesOn ==> outbox == posted
      {
        ghost var handled := HandleRead(key, incoming[i], host.decrypt, host.parse);
        ReadAllFrom(key, incoming, i, host.decrypt, host.parse);
        AppendHandled(outbox, ReadAll(key, incoming[i..], host.decrypt, host.parse), handled,
                      ReadAll(key, incoming[i + 1..], host.decrypt, host.parse));
        goesOn := Receive(key, incoming[i], host);
        i := i + 1;
      }
      assert goesOn ==> incoming[i..] == [];
    }

    method ListenLoop(host: SerialHost<J>)
      modifies this
      ensures State() == ListenLoopSpec(old(State()), host)
    {
      if port.None? || serialNumber.None? || !port.value.readable {
        return;
      }
      ReadLoop(serialNumber.value, host.incoming, host);
    }

    method OnMessage(request: Request, host: SerialHost<J>)
      modifies this
      ensures State() == OnMessageSpec(old(State()), request, host)
    {
      match request {
        case Init =>
          match host.init {
            case Resolved(_) =>
              PostMessage(InitSuccess);
            case Rejected(f) =>
              PostMessage(Error(f.message));
          }
        case Connect(selected) =>
          if selected.None? {
            PostMessage(Error("Serial port not received in worker."));
            return;
          }
          var p := selected.value;
          var openResult := host.open(BaudRate);
          if openResult.Rejected? {
            PostMessage(Error(openResult.fault.message));
            return;
          }
          serialNumber := Some(CharCodeKey(OrEmpty(p.info.usbSerialNumber)));
          port := Some(p);
          PostMessage(Connected(p.info.usbVendorId, p.info.usbProductId, p.info.usbSerialNumber));
          if p.writable {
            var written := host.write(StartCommand());
            if written.Rejected? {
              PostMessage(Error(written.fault.message));
              return;
            }
          }
          ListenLoop(host);
        case Disconnect =>
          if port.Some? {
            PostMessage(Disconnected);
          }
          port := None;
          serialNumber := None;
        case Unrecognised =>
      }
    }
  }
}
