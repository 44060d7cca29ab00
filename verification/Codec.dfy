/** The request format: what the client's `Call::write` puts on the socket and
    what the server's `Call::read` takes off it, as functions on byte sequences. */
module Codec {
  import opened Bytes

  datatype Writable =
    | Base
    | IntW(v: int)
    | MethodW(cls: seq<byte>, name: seq<byte>, params: seq<Writable>)

  /** A remote call as the server holds it: class, method and parameters. */
  datatype Request = Request(cls: seq<byte>, name: seq<byte>, params: seq<Writable>)

  function Ascii(s: string): (r: seq<byte>)
    requires forall i :: 0 <= i < |s| ==> s[i] as int < 128
    ensures |r| == |s|
  {
    seq(|s|, i requires 0 <= i < |s| => s[i] as int)
  }

  const INT_CLASS: seq<byte> := Ascii("IntWritable")
  const METHOD_CLASS: seq<byte> := Ascii("MethodWritable")
  const BASE_CLASS: seq<byte> := Ascii("Writable")

  function ClassOf(w: Writable): seq<byte> {
    match w
    case Base => BASE_CLASS
    case IntW(_) => INT_CLASS
    case MethodW(_, _, _) => METHOD_CLASS
  }

  // ----- Encoding -----

  /** `writeString`: the length is first narrowed to `int`, and a length of 0
      sends nothing at all. */
  function EncodeString(s: seq<byte>): seq<byte> {
    var length := ToInt32(|s|);
    if length == 0 then [] else LE32(length) + s
  }

  function Encode(w: Writable): seq<byte>
    decreases w, 0
  {
    match w
    case Base => []
    case IntW(v) => LE64(4) + LE32(v)
    case MethodW(cls, name, params) => EncodeFields(cls, name, params)
  }

  function EncodeFields(cls: seq<byte>, name: seq<byte>, params: seq<Writable>): seq<byte>
    decreases params, 1
  {
    EncodeString(cls) + EncodeString(name) + LE64(|params|) + EncodeParams(params)
  }

  function EncodeParam(w: Writable): seq<byte>
    decreases w, 1
  {
    EncodeString(ClassOf(w)) + Encode(w)
  }

  function EncodeParams(ps: seq<Writable>): seq<byte>
    decreases ps, 0
  {
    if ps == [] then [] else EncodeParam(ps[0]) + EncodeParams(ps[1..])
  }

  /** One request on the wire: the call id, then the fields of the method. */
  function EncodeCall(id: int, r: Request): seq<byte> {
    LE32(id) + EncodeFields(r.cls, r.name, r.params)
  }

  // ----- Decoding -----

  /** The outcome of one read: a value and the unread bytes, or an exception
      and the bytes it left unread. A read past the end of the stream consumes
      what there was and throws. */
  datatype Read<+T> = Ok(value: T, rest: seq<byte>) | Throw(rest: seq<byte>)

  function Take(n: nat, bs: seq<byte>): (r: Read<seq<byte>>)
    ensures r.Ok? ==> |r.value| == n && bs == r.value + r.rest
    ensures r.Ok? <==> n <= |bs|
  {
    if n <= |bs| then Ok(bs[..n], bs[n..]) else Throw([])
  }

  /** `string(char*)`: everything before the first NUL. */
  function UpToNul(s: seq<byte>): seq<byte> {
    if s == [] || s[0] == 0 then [] else [s[0]] + UpToNul(s[1..])
  }

  function DecodeString(bs: seq<byte>): (r: Read<seq<byte>>)
    ensures r.Ok? ==> |r.rest| < |bs|
    ensures |r.rest| <= |bs|
  {
    match Take(4, bs)
    case Throw(rest) => Throw(rest)
    case Ok(l, rest) =>
      var length := Int32(l);
      // string(NULL) throws; length + 1 overflows `int`, and new char[] throws on a negative size
      if length <= 0 || length == INT_MAX then Throw(rest)
      else match Take(length, rest)
        case Throw(rest') => Throw(rest')
        case Ok(s, rest') => Ok(UpToNul(s), rest')
  }

  function DecodeSize(bs: seq<byte>): (r: Read<nat>)
    ensures |r.rest| <= |bs|
  {
    match Take(8, bs)
    case Throw(rest) => Throw(rest)
    case Ok(l, rest) => Ok(Size64(l), rest)
  }

  /** `IntWritable::readFields`: the payload is reinterpreted as one `char`. */
  function DecodeInt(bs: seq<byte>): (r: Read<int>)
    ensures |r.rest| <= |bs|
  {
    match DecodeSize(bs)
    case Throw(rest) => Throw(rest)
    case Ok(length, rest) =>
      match Take(length, rest)
      case Throw(rest') => Throw(rest')
      case Ok(buf, rest') => Ok(if buf == [] then 0 else SignExtend(buf[0]), rest')
  }

  /** The fields of a method read so far, whether an exception cut the reading
      short, and the unread bytes. */
  datatype Fields = Fields(cls: seq<byte>, name: seq<byte>, params: seq<Writable>, ok: bool, rest: seq<byte>)

  function DecodeFields(bs: seq<byte>): (r: Fields)
    ensures |r.rest| <= |bs|
    decreases |bs|, 3
  {
    match DecodeString(bs)
    case Throw(rest) => Fields([], [], [], false, rest)
    case Ok(cls, r1) =>
      match DecodeString(r1)
      case Throw(rest) => Fields(cls, [], [], false, rest)
      case Ok(name, r2) =>
        match DecodeSize(r2)
        case Throw(rest) => Fields(cls, name, [], false, rest)
        case Ok(n, r3) =>
          var (ps, ok, rest) := DecodeParams(n, r3);
          Fields(cls, name, ps, ok, rest)
  }

  /** The parameter loop. A parameter is appended before its fields are read,
      so an exception leaves it in the list. */
  function DecodeParams(n: nat, bs: seq<byte>): (r: (seq<Writable>, bool, seq<byte>))
    ensures |r.2| <= |bs|
    decreases |bs|, 2
  {
    if n == 0 then ([], true, bs)
    else
      match DecodeString(bs)
      case Throw(rest) => ([], false, rest)
      case Ok(cls, r1) =>
        var (w, ok, r2) := DecodeWritable(cls, r1);
        if !ok then ([w], false, r2)
        else
          var (ps, ok', rest) := DecodeParams(n - 1, r2);
          ([w] + ps, ok', rest)
  }

  /** `getNewInstance(cls)` then `readFields`. A nested method swallows every
      exception (`catch(...)`) and its caller ignores the returned -1; an
      `IntWritable` lets the exception through. */
  function DecodeWritable(cls: seq<byte>, bs: seq<byte>): (r: (Writable, bool, seq<byte>))
    ensures |r.2| <= |bs|
    decreases |bs|, 4
  {
    if cls == INT_CLASS then
      match DecodeInt(bs)
      case Throw(rest) => (IntW(0), false, rest)
      case Ok(v, rest) => (IntW(v), true, rest)
    else if cls == METHOD_CLASS then
      var f := DecodeFields(bs);
      (MethodW(f.cls, f.name, f.params), true, f.rest)
    else
      (Base, true, bs)
  }

  /** `Call::read`: the decoded id and request, or `Throw` where it returns false. */
  function DecodeCall(bs: seq<byte>): (r: Read<(int, Request)>)
    ensures |r.rest| <= |bs|
  {
    match Take(4, bs)
    case Throw(rest) => Throw(rest)
    case Ok(id, rest) =>
      var f := DecodeFields(rest);
      if f.ok then Ok((Int32(id), Request(f.cls, f.name, f.params)), f.rest) else Throw(f.rest)
  }

  // ----- What survives the wire -----

  /** Names `writeString` and `readString` carry unchanged. At a length of
      INT_MAX the reader's buffer size, one more, is no longer an `int`. */
  predicate GoodName(s: seq<byte>) { 0 < |s| < INT_MAX && 0 !in s }

  predicate WellFormed(w: Writable) {
    match w
    case Base => true
    case IntW(v) => IsInt32(v)
    case MethodW(cls, name, params) =>
      GoodName(cls) && GoodName(name) && |params| < SIZE_RANGE && forall p | p in params :: WellFormed(p)
  }

  predicate WellFormedParams(ps: seq<Writable>) { forall p | p in ps :: WellFormed(p) }

  predicate WellFormedRequest(r: Request) {
    GoodName(r.cls) && GoodName(r.name) && |r.params| < SIZE_RANGE && WellFormedParams(r.params)
  }

  /** The low byte of an `int`, sign-extended. */
  function LowByte(v: int): int { SignExtend(v % 256) }

  /** A value as it arrives: every integer keeps only its low byte. */
  function Arrived(w: Writable): Writable {
    match w
    case Base => Base
    case IntW(v) => IntW(LowByte(v))
    case MethodW(cls, name, params) => MethodW(cls, name, ArrivedParams(params))
  }

  function ArrivedParams(ps: seq<Writable>): seq<Writable> {
    if ps == [] then [] else [Arrived(ps[0])] + ArrivedParams(ps[1..])
  }

  function ArrivedRequest(r: Request): Request { r.(params := ArrivedParams(r.params)) }

  /** Every integer, at any depth, fits a signed byte. */
  predicate SmallInts(w: Writable) {
    match w
    case Base => true
    case IntW(v) => -128 <= v < 128
    case MethodW(_, _, params) => forall p | p in params :: SmallInts(p)
  }
}
