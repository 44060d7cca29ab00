/** Responses on the wire. */
module Response {
  import opened Bytes
  import opened Codec
  import opened CodecProofs

  /** Id, 8-byte length, value string. */
  function Header(id: int, value: seq<byte>): (r: seq<byte>)
    ensures |r| == 12
  {
    LE32(id) + LE64(|value|)
  }

  function Frame(id: int, value: seq<byte>): seq<byte> { Header(id, value) + value }

  /** `recvRespond` for a call whose value class is `IntWritable`. */
  function DecodeResponse(bs: seq<byte>): (r: Read<(int, int)>)
    ensures r.Ok? ==> |r.rest| < |bs|
  {
    match Take(4, bs)
    case Throw(rest) => Throw(rest)
    case Ok(id, rest) =>
      match DecodeInt(rest)
      case Throw(rest') => Throw(rest')
      case Ok(v, rest') => Ok((Int32(id), v), rest')
  }

  /** The integer the client makes of a value string. */
  function ClientValue(value: seq<byte>): int { if value == [] then 0 else SignExtend(value[0]) }

  /** The client splits one frame off the stream, whatever follows it. */
  lemma ResponseRoundTrip(id: int, value: seq<byte>, suffix: seq<byte>)
    requires IsInt32(id) && |value| < SIZE_RANGE
    ensures DecodeResponse(Frame(id, value) + suffix) == Ok((id, ClientValue(value)), suffix)
  {
    var bs := Frame(id, value) + suffix;
    var body := LE64(|value|) + value + suffix;
    assert bs[..4] == LE32(id) && bs[4..] == body;
    Int32OfLE32(id);
    if value == [] {
      assert body == LE64(0) + suffix;
      SizeRoundTrip(0, suffix);
      assert suffix[..0] == [] && suffix[0..] == suffix;
    } else {
      IntPayload(value, suffix);
    }
  }

  /** A truncated frame is never taken for a response. */
  lemma ResponseCut(id: int, value: seq<byte>, bs: seq<byte>)
    requires |value| < SIZE_RANGE && bs < Frame(id, value)
    ensures DecodeResponse(bs).Throw?
  {
    if |bs| >= 12 {
      assert bs[4..][..8] == LE64(|value|);
      Size64OfLE64(|value|);
    }
  }
}
