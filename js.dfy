/**
 * The JavaScript values that cross a port in bare-mux, reduced to what the
 * model needs to tell apart, together with the parsed-URL record and the
 * WebSocket readyState constants.
 */
module Js {

  /** A value posted on a port or handed to a callback. Payloads are opaque
      except for the byte contents of buffers and typed views. */
  datatype Value =
    | Undefined
    | Null
    | Bool(b: bool)
    | Num(n: int)
    | Str(s: string)
    | ArrayBuffer(bytes: seq<bv8>)
    /** A `Uint8Array`: a window onto a (possibly larger) backing buffer. */
    | TypedView(backing: seq<bv8>, byteOffset: nat, byteLength: nat)
    | Stream(stream: nat)
    | Blob(bytes: seq<bv8>)
    | Port(port: nat)

  /** JavaScript truthiness (`if (v)`, `v || d`). */
  predicate Truthy(v: Value)
  {
    match v
    case Undefined => false
    case Null => false
    case Bool(b) => b
    case Num(n) => n != 0
    case Str(s) => s != ""
    case _ => true
  }

  function DigitChar(d: nat): (c: char)
    requires d < 10
    ensures '0' <= c <= '9'
  {
    ['0', '1', '2', '3', '4', '5', '6', '7', '8', '9'][d]
  }

  /** Decimal notation of a natural number, as `String(n)` prints it. */
  function NatToDecimal(n: nat): (r: string)
    ensures |r| >= 1
    ensures forall i :: 0 <= i < |r| ==> '0' <= r[i] <= '9'
    decreases n
  {
    if n < 10 then [DigitChar(n)] else NatToDecimal(n / 10) + [DigitChar(n % 10)]
  }

  /** `ArrayBuffer.prototype.slice(start, end)` for non-negative arguments,
      which clamps both to the buffer. */
  function SliceBytes(b: seq<bv8>, start: nat, end: nat): (r: seq<bv8>)
    ensures start <= end <= |b| ==> r == b[start..end]
    ensures start <= |b| <= end ==> r == b[start..]
    ensures |b| <= start || end <= start ==> r == []
    ensures |r| <= |b|
  {
    var first := if start < |b| then start else |b|;
    var last := if end < |b| then end else |b|;
    if first <= last then b[first..last] else []
  }

  /** Whether `v` is a primitive other than a string, for which the `in`
      operator throws. */
  predicate NonStringPrimitive(v: Value)
  {
    v.Undefined? || v.Null? || v.Bool? || v.Num?
  }

  /** Whether `v` has a `byteLength` property: a buffer or a typed view. */
  predicate HasByteLength(v: Value)
  {
    v.ArrayBuffer? || v.TypedView?
  }

  /** The bytes a buffer, a typed view or a blob holds, as `new Blob([v])`
      and `arrayBuffer()` copy them. */
  function BytesOf(v: Value): seq<bv8>
    requires HasByteLength(v) || v.Blob?
  {
    match v
    case ArrayBuffer(b) => b
    case TypedView(b, off, len) => SliceBytes(b, off, off + len)
    case Blob(b) => b
  }

  /** The elements of a byte array in decimal, separated by commas, as
      `Array.prototype.join` writes them. */
  function JoinDecimal(bytes: seq<bv8>): (r: string)
    ensures bytes == [] <==> r == ""
    ensures |bytes| == 1 ==> r == NatToDecimal(bytes[0] as nat)
    decreases |bytes|
  {
    if bytes == [] then ""
    else if |bytes| == 1 then NatToDecimal(bytes[0] as nat)
    else JoinDecimal(bytes[..|bytes| - 1]) + "," + NatToDecimal(bytes[|bytes| - 1] as nat)
  }

  /** `String(v)`, the conversion `Array.prototype.map(String)` and template
      literals apply. A `Uint8Array` prints its elements. */
  function ToJsString(v: Value): string
  {
    match v
    case Undefined => "undefined"
    case Null => "null"
    case Bool(b) => if b then "true" else "false"
    case Num(n) => if n < 0 then "-" + NatToDecimal(-n) else NatToDecimal(n)
    case Str(s) => s
    case ArrayBuffer(_) => "[object ArrayBuffer]"
    case TypedView(b, off, len) => JoinDecimal(SliceBytes(b, off, off + len))
    case Stream(_) => "[object ReadableStream]"
    case Blob(_) => "[object Blob]"
    case Port(_) => "[object MessagePort]"
  }

  /** The elements of a byte array print as digits and commas only, with a
      comma exactly when there are two or more elements. */
  lemma {:induction false} JoinDecimalCommas(bytes: seq<bv8>)
    ensures forall i :: 0 <= i < |JoinDecimal(bytes)| ==>
      '0' <= JoinDecimal(bytes)[i] <= '9' || JoinDecimal(bytes)[i] == ','
    ensures ',' in JoinDecimal(bytes) <==> |bytes| >= 2
    decreases |bytes|
  {
    if |bytes| >= 2 {
      var front := JoinDecimal(bytes[..|bytes| - 1]);
      var last := NatToDecimal(bytes[|bytes| - 1] as nat);
      JoinDecimalCommas(bytes[..|bytes| - 1]);
      assert JoinDecimal(bytes) == front + "," + last;
      assert JoinDecimal(bytes)[|front|] == ',';
      forall i | 0 <= i < |JoinDecimal(bytes)|
        ensures '0' <= JoinDecimal(bytes)[i] <= '9' || JoinDecimal(bytes)[i] == ','
      {
        if i < |front| {
          assert JoinDecimal(bytes)[i] == front[i];
        } else if i > |front| {
          assert JoinDecimal(bytes)[i] == last[i - |front| - 1];
        }
      }
    } else if |bytes| == 1 {
      assert ',' !in NatToDecimal(bytes[0] as nat);
    }
  }

  /** What a `throw` carries: the host's exception objects by kind and
      message, or any other thrown value. */
  datatype Exception =
    | DOMException(message: string)
    | TypeError(message: string)
    | JsError(message: string)
    /** A `RangeError`, as host constructors throw for an argument out of range. */
    | RangeError(message: string)
    /** A `DOMException` whose name is `SyntaxError`, as host constructors
        throw for a malformed argument. */
    | SyntaxError(message: string)
    /** A `DOMException` whose name is `DataCloneError`, as `postMessage`
        throws for a value it can neither clone nor transfer. */
    | DataCloneError(uncloned: Value)
    | Thrown(value: Value)

  /** A parsed URL: the parts bare-mux reads (`protocol` keeps its colon,
      as in `"wss:"`), and `href`, its serialisation (`toString()`). */
  datatype Url = Url(protocol: string, host: string, href: string)

  /** The WebSocket readyState constants of the WHATWG WebSockets Standard. */
  const CONNECTING: int := 0
  const OPEN: int := 1
  const CLOSING: int := 2
  const CLOSED: int := 3

  predicate IsReadyState(s: int)
  {
    CONNECTING <= s <= CLOSED
  }
}
