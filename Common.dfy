/** Vocabulary shared by the two device workers: JavaScript's `null` as an
    option, the elements of a `Uint8Array`, the outcome of an awaited promise,
    and the character-code key both workers derive from a serial string. */
module Common {

  datatype Option<+T> = None | Some(value: T)

  /** One element of a `Uint8Array`. */
  newtype byte = x: int | 0 <= x < 256

  type Bytes = seq<byte>

  /** The error a rejected promise carries: its `name` and `message`. */
  datatype Fault = Fault(name: string, message: string)

  /** The settled outcome of an `await`. */
  datatype Awaited<+T> = Resolved(value: T) | Rejected(fault: Fault)

  /** JavaScript truthiness of an optional string: `undefined`, `null` and
      the empty string are all falsy, so `s || ""` and `s ? a : b` treat
      them alike. */
  predicate Truthy(s: Option<string>) {
    s.Some? && s.value != ""
  }

  /** `s || ""` */
  function OrEmpty(s: Option<string>): (r: string)
    ensures Truthy(s) ==> r == s.value
    ensures !Truthy(s) ==> r == ""
  {
    if s.Some? then s.value else ""
  }

  /** `c.charCodeAt(0)` for a one-code-point string `c`: the code point
      itself in the Basic Multilingual Plane, its high surrogate above it. */
  function FirstCodeUnit(c: char): (u: nat)
    ensures u < 0x1_0000
    ensures (c as int) < 0x1_0000 ==> u == c as int
  {
    if (c as int) < 0x1_0000 then c as int
    else 0xD800 + ((c as int) - 0x1_0000) / 0x400
  }

  /** What `new Uint8Array([...s].map(c => c.charCodeAt(0)))` holds: one
      entry per code point of `s`, each the first UTF-16 code unit of that
      code point reduced modulo 256 (`Uint8Array` stores ToUint8 of a number). */
  function CharCodeKey(s: string): (key: Bytes)
    ensures |key| == |s|
    ensures forall k :: 0 <= k < |s| ==> key[k] as int == FirstCodeUnit(s[k]) % 256
  {
    if s == [] then []
    else [(FirstCodeUnit(s[0]) % 256) as byte] + CharCodeKey(s[1..])
  }

  /** For a serial string made only of Latin-1 characters, the key is the
      string's own character codes. */
  lemma CharCodeKeyOfLatin1(s: string)
    requires forall k :: 0 <= k < |s| ==> (s[k] as int) < 256
    ensures |CharCodeKey(s)| == |s|
    ensures forall k :: 0 <= k < |s| ==> CharCodeKey(s)[k] as int == s[k] as int
  {
  }

  /** The bytes of an ASCII string, as `TextEncoder.encode` yields them. */
  function AsciiBytes(s: string): (b: Bytes)
    requires forall k :: 0 <= k < |s| ==> (s[k] as int) < 128
    ensures |b| == |s|
    ensures forall k :: 0 <= k < |s| ==> b[k] as int == s[k] as int
  {
    if s == [] then [] else [(s[0] as int) as byte] + AsciiBytes(s[1..])
  }

  /** `new TextEncoder().encode("START\n")`: the command both workers send
      once the device is open. */
  function StartCommand(): (command: Bytes)
    ensures command == [0x53, 0x54, 0x41, 0x52, 0x54, 0x0A]
  {
    AsciiBytes("START\n")
  }

  /** The length of every packet the receiver sends; both workers drop
      any transfer or chunk of another length. */
  const PacketSize: nat := 17
}
