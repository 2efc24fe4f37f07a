// The RPC frame of the control socket (lib/rpc.h): a packed four-byte header
// (type, function-name length, payload length) followed by the function
// name and the payload.

module Rpc {
  import opened Common

  /** rpc_packet_type_t, packed to one byte. */
  datatype PacketType = Query | Response
  {
    function Code(): (c: byte)
      ensures c <= 1
    {
      if Query? then 0 else 1
    }
  }

  const TypeQuery: byte := Query.Code()
  const TypeResponse: byte := Response.Code()

  function PacketTypeOf(b: byte): (t: Option<PacketType>)
    ensures t.Some? <==> b <= 1
    ensures t.Some? ==> t.value.Code() == b
  {
    if b == 0 then Some(Query) else if b == 1 then Some(Response) else None
  }

  lemma PacketTypeEncoding()
    ensures TypeQuery == 0 && TypeResponse == 1
  {
  }

  // -------------------------------------------------------------------
  // Header

  const HeaderSize: nat := 4
  /** The widest function name and payload the header can describe. */
  const MaxFuncLen: nat := 0xff
  const MaxDataLen: nat := 0xffff

  /** The packed header: one byte of type, uint8_t func_len, uint16_t data_len. */
  datatype Header = Header(kind: byte, funcLen: byte, dataLen: uint16)

  function EncodeHeader(h: Header): (b: seq<byte>)
    ensures |b| == HeaderSize
  {
    [h.kind, h.funcLen] + LeBytes(h.dataLen, 2)
  }

  function DecodeHeader(b: seq<byte>): (h: Header)
    requires |b| >= HeaderSize
  {
    Header(b[0], b[1], LeValue(b[2..4]))
  }

  lemma HeaderRoundTrip(h: Header, b: seq<byte>)
    requires |b| >= HeaderSize
    ensures DecodeHeader(EncodeHeader(h)) == h
    ensures EncodeHeader(DecodeHeader(b)) == b[..HeaderSize]
  {
    assert EncodeHeader(h)[2..4] == LeBytes(h.dataLen, 2);
    LeRoundTrip(h.dataLen, 2);
    LeBytesOfValue(b[2..4]);
  }

  /** The header is read from the first four bytes only. */
  lemma DecodeHeaderPrefix(b: seq<byte>)
    requires |b| >= HeaderSize
    ensures DecodeHeader(b) == DecodeHeader(b[..HeaderSize])
  {
    assert b[..HeaderSize][2..4] == b[2..4];
  }

  // -------------------------------------------------------------------
  // Frames

  /** A packet: raw type byte, function name, payload. */
  datatype Frame = Frame(kind: byte, func: seq<byte>, data: seq<byte>)
  {
    /** Both lengths fit their header fields. */
    predicate WellSized() { |func| <= MaxFuncLen && |data| <= MaxDataLen }

    predicate IsQuery() { kind == TypeQuery }

    function Hdr(): (h: Header)
      requires WellSized()
      ensures h.funcLen == |func| && h.dataLen == |data|
    {
      Header(kind, |func|, |data|)
    }
  }

  /** rpc_create: a packet of the given type, name and payload. */
  function Create(t: PacketType, func: seq<byte>, data: seq<byte>): (f: Frame)
    ensures f.kind == t.Code() && f.func == func && f.data == data
  {
    Frame(t.Code(), func, data)
  }

  /** The reply a failed or unknown call gets: the same name and no payload. */
  function EmptyResponse(func: seq<byte>): (f: Frame)
    ensures f.kind == TypeResponse && f.func == func && f.data == []
  {
    Create(Response, func, [])
  }

  /** The reply of a dispatcher: the handler's payload, or an empty RESPONSE, under the request's name. */
  function ReplyFrame(name: seq<byte>, payload: Option<seq<byte>>): (f: Frame)
    ensures f.kind == TypeResponse && f.func == name
    ensures f.data == if payload.Some? then payload.value else []
  {
    if payload.Some? then Create(Response, name, payload.value) else EmptyResponse(name)
  }

  datatype CodecError = OversizedField | ShortRead

  datatype Result<+T> = Ok(value: T) | Err(error: CodecError)

  /** The frame's bytes, or OversizedField when a length does not fit its field. */
  function Encode(f: Frame): (r: Result<seq<byte>>)
    ensures r.Ok? <==> f.WellSized()
    ensures r.Ok? ==> |r.value| == HeaderSize + |f.func| + |f.data|
  {
    if !f.WellSized() then Err(OversizedField)
    else Ok(EncodeHeader(f.Hdr()) + f.func + f.data)
  }

  /**
   * One frame read from the front of a byte stream and the number of bytes
   * it took, or ShortRead when the stream ends inside it.
   */
  function Decode(b: seq<byte>): (r: Result<(Frame, nat)>)
    ensures r.Ok? ==> r.value.1 <= |b| && r.value.0.WellSized()
    ensures r.Ok? ==> r.value.1 == HeaderSize + |r.value.0.func| + |r.value.0.data|
  {
    if |b| < HeaderSize then Err(ShortRead)
    else
      var h := DecodeHeader(b);
      var total := HeaderSize + h.funcLen + h.dataLen;
      if |b| < total then Err(ShortRead)
      else Ok((Frame(h.kind, b[HeaderSize..HeaderSize + h.funcLen], b[HeaderSize + h.funcLen..total]), total))
  }

  /** Decoding an encoded frame, whatever follows it, gives back the frame and its length. */
  lemma RoundTrip(f: Frame, rest: seq<byte>)
    requires f.WellSized()
    ensures Encode(f).Ok?
    ensures Decode(Encode(f).value + rest) == Ok((f, |Encode(f).value|))
  {
    var e := Encode(f).value;
    var b := e + rest;
    HeaderRoundTrip(f.Hdr(), b);
    assert b[..HeaderSize] == EncodeHeader(f.Hdr());
    DecodeHeaderPrefix(b);
    assert b[HeaderSize..HeaderSize + |f.func|] == f.func;
    assert b[HeaderSize + |f.func|..|e|] == f.data;
  }

  /** A stream cut anywhere inside an encoded frame reads as ShortRead. */
  lemma TruncatedIsShortRead(f: Frame, k: nat)
    requires f.WellSized() && k < |Encode(f).value|
    ensures Decode(Encode(f).value[..k]) == Err(ShortRead)
  {
    var e := Encode(f).value;
    if k >= HeaderSize {
      HeaderRoundTrip(f.Hdr(), e);
      assert e[..k][..HeaderSize] == e[..HeaderSize] == EncodeHeader(f.Hdr());
      DecodeHeaderPrefix(e[..k]);
    }
  }

  /** What rpc_send reports: the bytes of the packet it sent. */
  function SentBytes(f: Frame): (n: nat)
    requires f.WellSized()
    ensures n == |Encode(f).value|
  {
    HeaderSize + |f.func| + |f.data|
  }
}
