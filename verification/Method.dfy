/** The method table, result values, and what a remote call returns to its caller. */
module Method {
  import opened Bytes
  import opened Codec
  import opened CodecProofs
  import opened Response

  const NAME_NODE: seq<byte> := Ascii("NameNode")
  const FS_NAME_SYSTEM: seq<byte> := Ascii("FSNameSystem")
  const CREATE: seq<byte> := Ascii("create")

  /** `NameNode::create`: a 32-bit sum. */
  function Create(a: int, b: int, c: int, d: int): int { ToInt32(a + b + c + d) }

  /** Requests for which `Method::call` returns a value: a known method, with
      the argument types `NameNode::create` dereferences. */
  predicate Known(r: Request) {
    && r.name == CREATE
    && (r.cls == FS_NAME_SYSTEM
        || (r.cls == NAME_NODE && |r.params| >= 4 && forall i :: 0 <= i < 4 ==> r.params[i].IntW?))
  }

  /** `Method::call`; NULL is `None`. */
  function Call(r: Request): Option<Writable>
    requires r.cls == NAME_NODE && r.name == CREATE ==> Known(r)
  {
    if r.cls == FS_NAME_SYSTEM then
      if r.name == CREATE then Some(IntW(32)) else None
    else if r.cls == NAME_NODE then
      if r.name == CREATE then
        Some(IntW(Create(r.params[0].v, r.params[1].v, r.params[2].v, r.params[3].v)))
      else None
    else None
  }

  /** The value string a handler stores in the call: `toString` of the result.
      Requests outside `Known` have none. */
  function Answer(r: Request): seq<byte> {
    if Known(r) && Call(r).Some? && Call(r).value.IntW? then LE32(Call(r).value.v) else []
  }

  // ----- The remote sum -----

  /** The request `DataNodeProtocol` issues for `create(a, b, c, d)`. */
  function CreateRequest(a: int, b: int, c: int, d: int): Request {
    Request(NAME_NODE, CREATE, [IntW(a), IntW(b), IntW(c), IntW(d)])
  }

  lemma CreateRequestGood(a: int, b: int, c: int, d: int)
    requires IsInt32(a) && IsInt32(b) && IsInt32(c) && IsInt32(d)
    ensures WellFormedRequest(CreateRequest(a, b, c, d))
    ensures ArrivedRequest(CreateRequest(a, b, c, d))
            == CreateRequest(LowByte(a), LowByte(b), LowByte(c), LowByte(d))
    ensures Known(CreateRequest(a, b, c, d))
  {
    var ps := [IntW(a), IntW(b), IntW(c), IntW(d)];
    assert ps[1..] == [IntW(b), IntW(c), IntW(d)];
    assert ps[1..][1..] == [IntW(c), IntW(d)];
    assert ps[1..][1..][1..] == [IntW(d)];
    assert |NAME_NODE| == 8 && |CREATE| == 6;
    assert ArrivedParams(ps[1..][1..][1..]) == [IntW(LowByte(d))];
    assert ArrivedParams(ps[1..][1..]) == [IntW(LowByte(c)), IntW(LowByte(d))];
    assert ArrivedParams(ps[1..]) == [IntW(LowByte(b)), IntW(LowByte(c)), IntW(LowByte(d))];
    assert ArrivedParams(ps) == [IntW(LowByte(a)), IntW(LowByte(b)), IntW(LowByte(c)), IntW(LowByte(d))];
  }

  lemma LowByteShift(v: int) returns (k: int)
    ensures LowByte(v) == v + 256 * k
  {
    k := (LowByte(v) - v) / 256;
  }

  lemma LowByteModular(x: int, k: int)
    ensures LowByte(x + 256 * k) == LowByte(x)
  {
    assert (x + 256 * k) % 256 == x % 256;
  }

  /** Summing low bytes agrees with summing, modulo 256. */
  lemma LowByteOfSum(a: int, b: int, c: int, d: int)
    ensures LowByte(LowByte(a) + LowByte(b) + LowByte(c) + LowByte(d)) == LowByte(a + b + c + d)
  {
    var ka := LowByteShift(a);
    var kb := LowByteShift(b);
    var kc := LowByteShift(c);
    var kd := LowByteShift(d);
    hide LowByte;
    LowByteModular(a + b + c + d, ka + kb + kc + kd);
    assert LowByte(a) + LowByte(b) + LowByte(c) + LowByte(d) == a + b + c + d + 256 * (ka + kb + kc + kd);
  }

  /** For all ints: sending `create(a, b, c, d)`, reading it, executing it,
      sending the answer and reading that yields the sign-extended low byte of
      the true sum, and the server-side sum does not overflow. */
  lemma RemoteCreate(id: int, a: int, b: int, c: int, d: int, more: seq<byte>, more': seq<byte>)
    requires IsInt32(id) && IsInt32(a) && IsInt32(b) && IsInt32(c) && IsInt32(d)
    ensures
      var request := Request(Ascii("NameNode"), Ascii("create"), [IntW(a), IntW(b), IntW(c), IntW(d)]);
      var arrived := request.(params := [IntW(LowByte(a)), IntW(LowByte(b)), IntW(LowByte(c)), IntW(LowByte(d))]);
      && DecodeCall(EncodeCall(id, request) + more) == Ok((id, arrived), more)
      && IsInt32(LowByte(a) + LowByte(b) + LowByte(c) + LowByte(d))
      && DecodeResponse(Frame(id, Answer(arrived)) + more') == Ok((id, LowByte(a + b + c + d)), more')
  {
    CreateRequestGood(a, b, c, d);
    CallRoundTrip(id, CreateRequest(a, b, c, d), more);
    CreateAnswer(a, b, c, d);
    hide DecodeCall, EncodeCall, DecodeResponse, Frame, Answer;
    ResponseRoundTrip(id, Answer(CreateRequest(LowByte(a), LowByte(b), LowByte(c), LowByte(d))), more');
  }

  lemma CreateAnswer(a: int, b: int, c: int, d: int)
    ensures
      var value := Answer(CreateRequest(LowByte(a), LowByte(b), LowByte(c), LowByte(d)));
      |value| == 4 && ClientValue(value) == LowByte(a + b + c + d)
  {
    LowByteOfSum(a, b, c, d);
    assert |NAME_NODE| == 8 && |FS_NAME_SYSTEM| == 12;
  }

  /** The remote sum is the true sum exactly when that is in -128..127,
      whatever the single arguments are. */
  lemma RemoteCreateIsSumExactly(a: int, b: int, c: int, d: int)
    ensures ClientValue(Answer(CreateRequest(LowByte(a), LowByte(b), LowByte(c), LowByte(d)))) == a + b + c + d
            <==> -128 <= a + b + c + d < 128
  {
    CreateAnswer(a, b, c, d);
  }

  // ----- The other method -----

  /** `FSNameSystem::create`, with any parameters: the server sends back 32. */
  lemma RemoteFsCreate(id: int, ps: seq<Writable>, more: seq<byte>, more': seq<byte>)
    requires IsInt32(id) && WellFormedParams(ps) && |ps| < SIZE_RANGE
    ensures
      var request := Request(Ascii("FSNameSystem"), Ascii("create"), ps);
      var arrived := request.(params := ArrivedParams(ps));
      && Known(arrived)
      && DecodeCall(EncodeCall(id, request) + more) == Ok((id, arrived), more)
      && DecodeResponse(Frame(id, Answer(arrived)) + more') == Ok((id, 32), more')
  {
    hide DecodeCall, EncodeCall, DecodeResponse, Frame, Answer, WellFormedRequest, ArrivedParams, LE32;
    var request := Request(FS_NAME_SYSTEM, CREATE, ps);
    FsRequestGood(ps);
    CallRoundTrip(id, request, more);
    FsAnswer(ArrivedParams(ps));
    ResponseRoundTrip(id, Answer(request.(params := ArrivedParams(ps))), more');
  }

  lemma FsRequestGood(ps: seq<Writable>)
    requires WellFormedParams(ps) && |ps| < SIZE_RANGE
    ensures WellFormedRequest(Request(FS_NAME_SYSTEM, CREATE, ps))
  {
    hide WellFormedParams;
    assert |FS_NAME_SYSTEM| == 12 && |CREATE| == 6;
  }

  lemma FsAnswer(ps: seq<Writable>)
    ensures
      var value := Answer(Request(Ascii("FSNameSystem"), Ascii("create"), ps));
      value == [32, 0, 0, 0] && ClientValue(value) == 32
  {
  }

  /** A method has a value exactly if it is `create` of one of the two classes. */
  lemma CallKnows(r: Request)
    requires r.cls == Ascii("NameNode") && r.name == Ascii("create") ==> Known(r)
    ensures Call(r).Some? <==> r.name == Ascii("create") && (r.cls == Ascii("NameNode") || r.cls == Ascii("FSNameSystem"))
  {
  }

  // ----- The bytes themselves -----

  /** The wire image of a request with every kind of parameter, byte for byte. */
  lemma RequestImage()
    ensures
      var names := ([8, 0, 0, 0] + Ascii("NameNode")) + ([6, 0, 0, 0] + Ascii("create"));
      var integer := ([11, 0, 0, 0] + Ascii("IntWritable")) + ([4, 0, 0, 0, 0, 0, 0, 0] + [254, 255, 255, 255]);
      var base := [8, 0, 0, 0] + Ascii("Writable");
      var nested := ([14, 0, 0, 0] + Ascii("MethodWritable")) + [1, 0, 0, 0, 65, 1, 0, 0, 0, 98, 0, 0, 0, 0, 0, 0, 0, 0];
      EncodeCall(258, Request(Ascii("NameNode"), Ascii("create"), [IntW(-2), Base, MethodW(Ascii("A"), Ascii("b"), [])]))
      == [2, 1, 0, 0] + (names + [3, 0, 0, 0, 0, 0, 0, 0] + (integer + (base + nested)))
  {
    assert Ascii("A") == [65] && Ascii("b") == [98];
    var inner := MethodW([65], [98], []);
    var ps := [IntW(-2), Base, inner];
    Literals();
    NameImages();
    IntImage();
    BaseImage();
    NestedImage();
    ThreeParams(IntW(-2), Base, inner);
    hide LE32, LE64, EncodeString, EncodeParam, EncodeParams, Ascii;
  }

  lemma ThreeParams(a: Writable, b: Writable, c: Writable)
    ensures EncodeParams([a, b, c]) == EncodeParam(a) + (EncodeParam(b) + EncodeParam(c))
  {
    hide EncodeParam;
    assert [a, b, c][1..] == [b, c] && [b, c][1..] == [c] && [c][1..] == [];
    assert EncodeParams([c]) == EncodeParam(c);
  }

  lemma NameImages()
    ensures EncodeString(NAME_NODE) == [8, 0, 0, 0] + NAME_NODE && EncodeString(CREATE) == [6, 0, 0, 0] + CREATE
    ensures EncodeString(INT_CLASS) == [11, 0, 0, 0] + INT_CLASS && EncodeString(BASE_CLASS) == [8, 0, 0, 0] + BASE_CLASS
    ensures EncodeString(METHOD_CLASS) == [14, 0, 0, 0] + METHOD_CLASS
  {
    Literals();
    hide LE32;
  }

  lemma IntImage()
    ensures EncodeParam(IntW(-2)) == ([11, 0, 0, 0] + INT_CLASS) + ([4, 0, 0, 0, 0, 0, 0, 0] + [254, 255, 255, 255])
  {
    Literals();
    NameImages();
    hide LE32, LE64, EncodeString;
  }

  lemma BaseImage()
    ensures EncodeParam(Base) == [8, 0, 0, 0] + BASE_CLASS
  {
    NameImages();
    hide EncodeString;
  }

  lemma NestedImage()
    ensures EncodeParam(MethodW([65], [98], []))
            == ([14, 0, 0, 0] + METHOD_CLASS) + [1, 0, 0, 0, 65, 1, 0, 0, 0, 98, 0, 0, 0, 0, 0, 0, 0, 0]
  {
    Literals();
    NameImages();
    LetterImages();
    hide LE32, LE64, EncodeString, Ascii;
    var none: seq<Writable> := [];
    assert EncodeParams(none) == [];
    assert EncodeFields([65], [98], none) == [1, 0, 0, 0, 65, 1, 0, 0, 0, 98, 0, 0, 0, 0, 0, 0, 0, 0];
    hide EncodeFields;
    assert Encode(MethodW([65], [98], none)) == EncodeFields([65], [98], none);
  }

  lemma LetterImages()
    ensures EncodeString([65]) == [1, 0, 0, 0, 65] && EncodeString([98]) == [1, 0, 0, 0, 98]
  {
    Literals();
    hide LE32;
  }

  lemma Literals()
    ensures LE32(258) == [2, 1, 0, 0] && LE32(1) == [1, 0, 0, 0] && LE32(-2) == [254, 255, 255, 255]
    ensures LE32(6) == [6, 0, 0, 0] && LE32(8) == [8, 0, 0, 0] && LE32(11) == [11, 0, 0, 0] && LE32(14) == [14, 0, 0, 0]
    ensures LE64(0) == [0, 0, 0, 0, 0, 0, 0, 0] && LE64(3) == [3, 0, 0, 0, 0, 0, 0, 0] && LE64(4) == [4, 0, 0, 0, 0, 0, 0, 0]
  {
  }

  /** And of a response. */
  lemma ResponseImage()
    ensures Frame(258, [7, 0, 0, 0]) == [2, 1, 0, 0] + [4, 0, 0, 0, 0, 0, 0, 0] + [7, 0, 0, 0]
  {
    Literals();
  }
}
