/** Round trips of the request format, and which truncations it detects. */
module CodecProofs {
  import opened Bytes
  import opened Codec

  // ----- Strings -----

  lemma {:induction false} UpToNulKeeps(s: seq<byte>)
    ensures 0 !in UpToNul(s) && |UpToNul(s)| <= |s|
    ensures 0 !in s ==> UpToNul(s) == s
  {
    if s != [] && s[0] != 0 {
      UpToNulKeeps(s[1..]);
      assert s == [s[0]] + s[1..];
    }
  }

  lemma StringRoundTrip(s: seq<byte>, suffix: seq<byte>)
    requires GoodName(s)
    ensures DecodeString(EncodeString(s) + suffix) == Ok(s, suffix)
  {
    var bs := EncodeString(s) + suffix;
    assert bs[..4] == LE32(|s|) && bs[4..] == s + suffix;
    Int32OfLE32(|s|);
    assert (s + suffix)[..|s|] == s && (s + suffix)[|s|..] == suffix;
    UpToNulKeeps(s);
  }

  /** A string survives the wire, whatever follows it, exactly when it is
      non-empty, NUL-free and shorter than 2^31 - 1. */
  lemma StringRoundTripExact(s: seq<byte>)
    ensures (forall suffix: seq<byte> :: DecodeString(EncodeString(s) + suffix) == Ok(s, suffix)) <==> GoodName(s)
  {
    if GoodName(s) {
      forall suffix: seq<byte> ensures DecodeString(EncodeString(s) + suffix) == Ok(s, suffix) {
        StringRoundTrip(s, suffix);
      }
    } else {
      BadNameIsLost(s);
    }
  }

  lemma BadNameIsLost(s: seq<byte>)
    requires !GoodName(s)
    ensures DecodeString(EncodeString(s) + []) != Ok(s, [])
  {
    var length := ToInt32(|s|);
    var bs := EncodeString(s) + [];
    if length != 0 {
      assert bs[..4] == LE32(length) && bs[4..] == s;
      Int32OfLE32(length);
      if 0 < length <= |s| {
        UpToNulKeeps(s[..length]);
      }
    }
  }

  // ----- Integers -----

  lemma SizeRoundTrip(n: nat, suffix: seq<byte>)
    requires n < SIZE_RANGE
    ensures DecodeSize(LE64(n) + suffix) == Ok(n, suffix)
  {
    assert (LE64(n) + suffix)[..8] == LE64(n) && (LE64(n) + suffix)[8..] == suffix;
    Size64OfLE64(n);
  }

  /** Any length-prefixed payload is read back as its first byte, sign-extended. */
  lemma IntPayload(payload: seq<byte>, suffix: seq<byte>)
    requires 0 < |payload| < SIZE_RANGE
    ensures DecodeInt(LE64(|payload|) + payload + suffix) == Ok(SignExtend(payload[0]), suffix)
  {
    assert LE64(|payload|) + payload + suffix == LE64(|payload|) + (payload + suffix);
    SizeRoundTrip(|payload|, payload + suffix);
    assert (payload + suffix)[..|payload|] == payload && (payload + suffix)[|payload|..] == suffix;
  }

  lemma IntRoundTrip(v: int, suffix: seq<byte>)
    ensures DecodeInt(Encode(IntW(v)) + suffix) == Ok(LowByte(v), suffix)
  {
    IntPayload(LE32(v), suffix);
  }

  // ----- Requests -----

  lemma ClassNames()
    ensures GoodName(INT_CLASS) && GoodName(METHOD_CLASS) && GoodName(BASE_CLASS)
    ensures INT_CLASS != METHOD_CLASS && BASE_CLASS != INT_CLASS && BASE_CLASS != METHOD_CLASS
  {
    assert |INT_CLASS| == 11 && |METHOD_CLASS| == 14 && |BASE_CLASS| == 8;
  }

  lemma {:induction false} ParamRoundTrip(w: Writable, suffix: seq<byte>)
    requires WellFormed(w)
    ensures DecodeString(EncodeParam(w) + suffix) == Ok(ClassOf(w), Encode(w) + suffix)
    ensures DecodeWritable(ClassOf(w), Encode(w) + suffix) == (Arrived(w), true, suffix)
    decreases w, 0
  {
    ClassNames();
    assert EncodeParam(w) + suffix == EncodeString(ClassOf(w)) + (Encode(w) + suffix);
    StringRoundTrip(ClassOf(w), Encode(w) + suffix);
    match w
    case Base =>
    case IntW(v) => IntRoundTrip(v, suffix);
    case MethodW(cls, name, params) => FieldsRoundTrip(cls, name, params, suffix);
  }

  lemma {:induction false} ParamsRoundTrip(ps: seq<Writable>, suffix: seq<byte>)
    requires WellFormedParams(ps)
    ensures DecodeParams(|ps|, EncodeParams(ps) + suffix) == (ArrivedParams(ps), true, suffix)
    decreases ps, 0
  {
    hide DecodeString, DecodeWritable, EncodeParam;
    if ps == [] {
      assert EncodeParams(ps) + suffix == suffix;
    } else {
      var tail := EncodeParams(ps[1..]) + suffix;
      assert EncodeParams(ps) + suffix == EncodeParam(ps[0]) + tail;
      ParamRoundTrip(ps[0], tail);
      ParamsRoundTrip(ps[1..], suffix);
    }
  }

  lemma {:induction false} FieldsRoundTrip(cls: seq<byte>, name: seq<byte>, ps: seq<Writable>, suffix: seq<byte>)
    requires GoodName(cls) && GoodName(name) && |ps| < SIZE_RANGE && WellFormedParams(ps)
    ensures DecodeFields(EncodeFields(cls, name, ps) + suffix) == Fields(cls, name, ArrivedParams(ps), true, suffix)
    decreases ps, 1
  {
    hide DecodeString, DecodeSize, DecodeParams, EncodeString, EncodeParams, LE64, ArrivedParams;
    var r3 := EncodeParams(ps) + suffix;
    var r2 := LE64(|ps|) + r3;
    var r1 := EncodeString(name) + r2;
    assert EncodeFields(cls, name, ps) + suffix == EncodeString(cls) + r1;
    StringRoundTrip(cls, r1);
    StringRoundTrip(name, r2);
    SizeRoundTrip(|ps|, r3);
    ParamsRoundTrip(ps, suffix);
  }

  /** Whatever follows it on the stream, a well-formed request is read back with
      its own id, names and structure, and leaves exactly what followed it. */
  lemma CallRoundTrip(id: int, r: Request, suffix: seq<byte>)
    requires IsInt32(id) && WellFormedRequest(r)
    ensures DecodeCall(EncodeCall(id, r) + suffix) == Ok((id, ArrivedRequest(r)), suffix)
  {
    hide DecodeFields, EncodeFields, LE32, Int32;
    var fields := EncodeFields(r.cls, r.name, r.params);
    var bs := EncodeCall(id, r) + suffix;
    assert bs[..4] == LE32(id) && bs[4..] == fields + suffix;
    Int32OfLE32(id);
    FieldsRoundTrip(r.cls, r.name, r.params, suffix);
  }

  lemma {:induction false} ArrivedUnchanged(w: Writable)
    ensures Arrived(w) == w <==> SmallInts(w)
    decreases w, 0
  {
    match w
    case Base =>
    case IntW(v) =>
    case MethodW(_, _, params) => ArrivedParamsUnchanged(params);
  }

  lemma {:induction false} ArrivedParamsUnchanged(ps: seq<Writable>)
    ensures ArrivedParams(ps) == ps <==> forall p | p in ps :: SmallInts(p)
    decreases ps, 0
  {
    if ps != [] {
      assert ps == [ps[0]] + ps[1..];
      ArrivedUnchanged(ps[0]);
      ArrivedParamsUnchanged(ps[1..]);
    }
  }

  /** The request itself comes back exactly when every integer in it, at any
      depth, is in the signed byte range. */
  lemma CallRoundTripExact(id: int, r: Request, suffix: seq<byte>)
    requires IsInt32(id) && WellFormedRequest(r)
    ensures DecodeCall(EncodeCall(id, r) + suffix) == Ok((id, r), suffix)
            <==> forall p | p in r.params :: SmallInts(p)
  {
    CallRoundTrip(id, r, suffix);
    ArrivedParamsUnchanged(r.params);
  }

  /** A pipelined stream of requests. */
  function EncodeCalls(calls: seq<(int, Request)>): seq<byte> {
    if calls == [] then [] else EncodeCall(calls[0].0, calls[0].1) + EncodeCalls(calls[1..])
  }

  /** Reading one call after another until a read fails. */
  function DecodeCalls(bs: seq<byte>): seq<(int, Request)>
    decreases |bs|
  {
    match DecodeCall(bs)
    case Throw(_) => []
    case Ok(call, rest) => if |rest| < |bs| then [call] + DecodeCalls(rest) else [call]
  }

  predicate SendableCalls(calls: seq<(int, Request)>) {
    forall c | c in calls :: IsInt32(c.0) && WellFormedRequest(c.1)
  }

  function ArrivedCalls(calls: seq<(int, Request)>): seq<(int, Request)> {
    if calls == [] then [] else [(calls[0].0, ArrivedRequest(calls[0].1))] + ArrivedCalls(calls[1..])
  }

  /** Any number of requests sent back to back is split into exactly those requests. */
  lemma {:induction false} StreamRoundTrip(calls: seq<(int, Request)>)
    requires SendableCalls(calls)
    ensures DecodeCalls(EncodeCalls(calls)) == ArrivedCalls(calls)
  {
    if calls != [] {
      var (id, r) := calls[0];
      assert calls[0] in calls;
      var rest := EncodeCalls(calls[1..]);
      assert |EncodeCall(id, r)| >= 4;
      hide DecodeCall, EncodeCall, ArrivedRequest;
      CallRoundTrip(id, r, rest);
      StreamRoundTrip(calls[1..]);
    }
  }

  // ----- Truncated requests -----

  lemma StringCut(s: seq<byte>, bs: seq<byte>)
    requires GoodName(s) && bs < EncodeString(s)
    ensures DecodeString(bs) == Throw([])
  {
    if |bs| >= 4 {
      assert bs[..4] == LE32(|s|);
      Int32OfLE32(|s|);
    }
  }

  lemma IntCut(v: int, bs: seq<byte>)
    requires bs < Encode(IntW(v))
    ensures DecodeInt(bs) == Throw([])
  {
    if |bs| >= 8 {
      assert bs[..8] == LE64(4);
      Size64OfLE64(4);
    }
  }

  /** A prefix of `a + b` either cuts `a` or is `a` followed by a prefix of `b`. */
  lemma PrefixSplit(a: seq<byte>, b: seq<byte>, bs: seq<byte>)
    requires bs < a + b
    ensures bs < a || (|a| <= |bs| && bs == a + bs[|a|..] && bs[|a|..] < b)
  {
    if |bs| >= |a| {
      assert forall i :: 0 <= i < |bs| ==> bs[i] == (a + b)[i];
    } else {
      assert forall i :: 0 <= i < |bs| ==> bs[i] == (a + b)[i];
    }
  }

  predicate EndsInMethod(ps: seq<Writable>) { ps != [] && ps[|ps| - 1].MethodW? }

  lemma NothingLeft(n: nat)
    ensures DecodeParams(n, []).2 == [] && (n > 0 ==> !DecodeParams(n, []).1)
  {
  }

  /** Cutting one parameter: only a nested method lets the cut go unnoticed. */
  lemma {:induction false} ParamCut(w: Writable, bs: seq<byte>)
    requires WellFormed(w) && bs < EncodeParam(w)
    ensures DecodeString(bs) == Throw([])
            || (DecodeString(bs).Ok?
                && var r := DecodeWritable(DecodeString(bs).value, DecodeString(bs).rest);
                   r.2 == [] && (r.1 ==> w.MethodW?))
    decreases w, 0
  {
    ClassNames();
    hide DecodeString, DecodeInt, DecodeFields, EncodeString, EncodeFields, LE32, LE64;
    PrefixSplit(EncodeString(ClassOf(w)), Encode(w), bs);
    if bs < EncodeString(ClassOf(w)) {
      StringCut(ClassOf(w), bs);
    } else {
      var body := bs[|EncodeString(ClassOf(w))|..];
      StringRoundTrip(ClassOf(w), body);
      match w
      case Base =>
      case IntW(v) => IntCut(v, body);
      case MethodW(cls, name, params) => FieldsCut(cls, name, params, body);
    }
  }

  /** Cutting a parameter list: the whole stream is used up, and the cut goes
      unnoticed only inside a final nested method. */
  lemma {:induction false} ParamsCut(ps: seq<Writable>, bs: seq<byte>)
    requires WellFormedParams(ps) && bs < EncodeParams(ps)
    ensures DecodeParams(|ps|, bs).2 == []
    ensures !EndsInMethod(ps) ==> !DecodeParams(|ps|, bs).1
    decreases ps, 0
  {
    hide DecodeString, DecodeWritable, EncodeParam;
    var w := ps[0];
    assert w in ps;
    PrefixSplit(EncodeParam(w), EncodeParams(ps[1..]), bs);
    if bs < EncodeParam(w) {
      ParamCut(w, bs);
      NothingLeft(|ps| - 1);
    } else {
      var rest := bs[|EncodeParam(w)|..];
      ParamRoundTrip(w, rest);
      ParamsCut(ps[1..], rest);
    }
  }

  lemma {:induction false} FieldsCut(cls: seq<byte>, name: seq<byte>, ps: seq<Writable>, bs: seq<byte>)
    requires GoodName(cls) && GoodName(name) && |ps| < SIZE_RANGE && WellFormedParams(ps)
    requires bs < EncodeFields(cls, name, ps)
    ensures DecodeFields(bs).rest == []
    ensures !EndsInMethod(ps) ==> !DecodeFields(bs).ok
    decreases ps, 1
  {
    hide DecodeString, DecodeParams, EncodeString, EncodeParams, LE64;
    var r2 := LE64(|ps|) + EncodeParams(ps);
    var r1 := EncodeString(name) + r2;
    assert EncodeFields(cls, name, ps) == EncodeString(cls) + r1;
    PrefixSplit(EncodeString(cls), r1, bs);
    if bs < EncodeString(cls) {
      StringCut(cls, bs);
    } else {
      var bs1 := bs[|EncodeString(cls)|..];
      StringRoundTrip(cls, bs1);
      PrefixSplit(EncodeString(name), r2, bs1);
      if bs1 < EncodeString(name) {
        StringCut(name, bs1);
      } else {
        var bs2 := bs1[|EncodeString(name)|..];
        StringRoundTrip(name, bs2);
        PrefixSplit(LE64(|ps|), EncodeParams(ps), bs2);
        if |bs2| >= 8 {
          var bs3 := bs2[8..];
          SizeRoundTrip(|ps|, bs3);
          ParamsCut(ps, bs3);
        }
      }
    }
  }

  /** Prefix safety: with a last parameter that is not a nested method, no
      truncation of a request is accepted as a shorter one. */
  lemma TruncationDetected(id: int, r: Request, bs: seq<byte>)
    requires WellFormedRequest(r) && !EndsInMethod(r.params)
    requires bs < EncodeCall(id, r)
    ensures DecodeCall(bs).Throw?
  {
    PrefixSplit(LE32(id), EncodeFields(r.cls, r.name, r.params), bs);
    if |bs| >= 4 {
      FieldsCut(r.cls, r.name, r.params, bs[4..]);
    }
  }

  lemma MethodNeverThrows(bs: seq<byte>)
    ensures DecodeWritable(METHOD_CLASS, bs).1
  {
    ClassNames();
  }

  /** Cutting a list right behind the class name of a final nested method. */
  lemma {:induction false} ParamsCutAccepted(ps: seq<Writable>) returns (bs: seq<byte>)
    requires WellFormedParams(ps) && EndsInMethod(ps)
    ensures bs < EncodeParams(ps) && DecodeParams(|ps|, bs).1
  {
    hide DecodeString, DecodeWritable, EncodeParam;
    var w := ps[0];
    assert w in ps;
    if |ps| == 1 {
      bs := MethodCutAccepted(w);
      assert EncodeParams(ps) == EncodeParam(w) + EncodeParams(ps[1..]);
    } else {
      assert ps[1..][|ps| - 2] == ps[|ps| - 1];
      var tail := ParamsCutAccepted(ps[1..]);
      bs := EncodeParam(w) + tail;
      ParamRoundTrip(w, tail);
    }
  }

  lemma MethodCutAccepted(w: Writable) returns (bs: seq<byte>)
    requires w.MethodW?
    ensures bs < EncodeParam(w) && DecodeString(bs) == Ok(METHOD_CLASS, [])
    ensures DecodeWritable(METHOD_CLASS, []).1
  {
    assert |Encode(w)| >= 8;
    hide DecodeString, DecodeWritable, Encode, EncodeString, GoodName;
    ClassNames();
    bs := EncodeString(METHOD_CLASS);
    StringRoundTrip(METHOD_CLASS, []);
    assert bs + [] == bs;
    MethodNeverThrows([]);
  }

  lemma CutAccepted(id: int, r: Request) returns (bs: seq<byte>)
    requires WellFormedRequest(r) && EndsInMethod(r.params)
    ensures bs < EncodeCall(id, r) && DecodeCall(bs).Ok?
  {
    hide DecodeString, DecodeSize, DecodeParams, EncodeString, EncodeParams, LE32, LE64, Int32;
    var cut := ParamsCutAccepted(r.params);
    var r2 := LE64(|r.params|) + cut;
    var r1 := EncodeString(r.name) + r2;
    StringRoundTrip(r.cls, r1);
    StringRoundTrip(r.name, r2);
    SizeRoundTrip(|r.params|, cut);
    assert DecodeFields(EncodeString(r.cls) + r1).ok;
    bs := LE32(id) + (EncodeString(r.cls) + r1);
    assert bs[..4] == LE32(id) && bs[4..] == EncodeString(r.cls) + r1;
    var head := LE32(id) + (EncodeString(r.cls) + EncodeString(r.name) + LE64(|r.params|));
    assert bs == head + cut && EncodeCall(id, r) == head + EncodeParams(r.params);
  }

  /** A request is safe against truncation exactly when its last parameter is
      not a nested method: there, the swallowed exception hides the cut. */
  lemma TruncationSafeExactly(id: int, r: Request)
    requires WellFormedRequest(r)
    ensures (forall bs: seq<byte> | bs < EncodeCall(id, r) :: DecodeCall(bs).Throw?) <==> !EndsInMethod(r.params)
  {
    hide DecodeCall, EncodeCall;
    if EndsInMethod(r.params) {
      var bs := CutAccepted(id, r);
    } else {
      forall bs: seq<byte> | bs < EncodeCall(id, r) ensures DecodeCall(bs).Throw? {
        TruncationDetected(id, r, bs);
      }
    }
  }

  // ----- Input no encoder sends -----

  /** A length that is not positive throws, with the rest unread. */
  lemma BadLengthThrows(length: int, s: seq<byte>)
    requires IsInt32(length) && length <= 0
    ensures DecodeString(LE32(length) + s) == Throw(s)
  {
    Int32OfLE32(length);
    assert (LE32(length) + s)[..4] == LE32(length) && (LE32(length) + s)[4..] == s;
  }

  /** A class name the factory does not know makes an object that reads nothing. */
  lemma UnknownClassReadsNothing(cls: seq<byte>, bs: seq<byte>)
    requires cls != Ascii("IntWritable") && cls != Ascii("MethodWritable")
    ensures DecodeWritable(cls, bs) == (Base, true, bs)
  {
  }

  /** What a nested method cut short keeps: its names, and the parameter it was about
      to read, which stays 0; its caller takes it for a whole one. */
  lemma CutMethodKeeps(cls: seq<byte>, name: seq<byte>)
    requires GoodName(cls) && GoodName(name)
    ensures DecodeWritable(METHOD_CLASS, EncodeString(cls)) == (MethodW(cls, [], []), true, [])
    ensures DecodeWritable(METHOD_CLASS, EncodeString(cls) + (EncodeString(name) + (LE64(1) + EncodeString(INT_CLASS))))
            == (MethodW(cls, name, [IntW(0)]), true, [])
  {
    ClassNames();
    CutInteger();
    StringRoundTrip(cls, []);
    var r2 := LE64(1) + EncodeString(INT_CLASS);
    StringRoundTrip(cls, EncodeString(name) + r2);
    StringRoundTrip(name, r2);
    SizeRoundTrip(1, EncodeString(INT_CLASS));
    assert EncodeString(cls) + [] == EncodeString(cls);
    assert DecodeString([]) == Throw([]);
    hide DecodeString, DecodeSize, DecodeParams, EncodeString, LE64, INT_CLASS;
  }

  lemma CutInteger()
    ensures DecodeParams(1, EncodeString(INT_CLASS)) == ([IntW(0)], false, [])
  {
    ClassNames();
    StringRoundTrip(INT_CLASS, []);
    assert EncodeString(INT_CLASS) + [] == EncodeString(INT_CLASS);
    assert DecodeInt([]) == Throw([]);
    hide DecodeString, EncodeString, DecodeInt;
    assert DecodeWritable(INT_CLASS, []) == (IntW(0), false, []);
  }
}
