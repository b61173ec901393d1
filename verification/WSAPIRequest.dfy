/** The correlation id of a web-socket request: six fields packed into 27 bytes, printed as 36
    characters of the URL-safe base 64 alphabet. The exchange echoes the id in its reply. */
module WSAPIRequest {
  import opened Words
  import opened Wrappers
  import Base64Url

  const DATA_LENGTH := 27
  const TEXT_LENGTH := 36

  type UnnamedCode = x: int | 11 <= x < TWO_8 witness 11

  /** The request types. Any byte converts to a type, also one without a name. */
  datatype WSAPIType =
    | UNDEFINED_INTERNAL
    | UNKNOWN_INTERNAL
    | SESSION_LOGON
    | USER_DATA_STREAM_SUBSCRIBE
    | ACCOUNT_STATUS
    | OPEN_ORDERS_STATUS
    | MY_TRADES
    | ORDER_PLACE
    | ORDER_AMEND_KEEP_PRIORITY
    | ORDER_CANCEL
    | OPEN_ORDERS_CANCEL_ALL
    | UNNAMED(code: UnnamedCode)

  function TypeToByte(t: WSAPIType): (b: uint8) {
    match t
    case UNDEFINED_INTERNAL => 0
    case UNKNOWN_INTERNAL => 1
    case SESSION_LOGON => 2
    case USER_DATA_STREAM_SUBSCRIBE => 3
    case ACCOUNT_STATUS => 4
    case OPEN_ORDERS_STATUS => 5
    case MY_TRADES => 6
    case ORDER_PLACE => 7
    case ORDER_AMEND_KEEP_PRIORITY => 8
    case ORDER_CANCEL => 9
    case OPEN_ORDERS_CANCEL_ALL => 10
    case UNNAMED(code) => code
  }

  function ByteToType(b: uint8): (t: WSAPIType)
    ensures TypeToByte(t) == b
  {
    if b == 0 then UNDEFINED_INTERNAL
    else if b == 1 then UNKNOWN_INTERNAL
    else if b == 2 then SESSION_LOGON
    else if b == 3 then USER_DATA_STREAM_SUBSCRIBE
    else if b == 4 then ACCOUNT_STATUS
    else if b == 5 then OPEN_ORDERS_STATUS
    else if b == 6 then MY_TRADES
    else if b == 7 then ORDER_PLACE
    else if b == 8 then ORDER_AMEND_KEEP_PRIORITY
    else if b == 9 then ORDER_CANCEL
    else if b == 10 then OPEN_ORDERS_CANCEL_ALL
    else UNNAMED(b)
  }

  datatype Request = Request(
    sequence: uint32,
    requestType: WSAPIType,
    userId: uint8,
    orderId: uint64,
    version: uint32,
    orderId2: uint64)

  datatype DecodeError = UNEXPECTED_LENGTH(length: nat) | NOT_BASE64

  /** The byte layout of a request. The last byte is always zero. */
  function Bytes(r: Request): (bytes: seq<uint8>)
    ensures |bytes| == DATA_LENGTH
  {
    LittleEndian(r.sequence, 4) + [TypeToByte(r.requestType), r.userId] + LittleEndian(r.orderId, 8)
    + LittleEndian(r.version, 4) + LittleEndian(r.orderId2, 8) + [0]
  }

  /** The number stored in the bytes from `lo` up to `hi`. */
  function Field(bytes: seq<uint8>, lo: nat, hi: nat): (value: nat)
    requires lo <= hi <= |bytes|
    ensures value < Capacity(hi - lo)
  {
    LoadThenStore(bytes[lo..hi]);
    FromLittleEndian(bytes[lo..hi])
  }

  /** The request laid out in 27 bytes. The last byte is not looked at. */
  function FromBytes(bytes: seq<uint8>): (r: Request)
    requires |bytes| == DATA_LENGTH
  {
    Capacities();
    Request(
      Field(bytes, 0, 4), ByteToType(bytes[4]), bytes[5], Field(bytes, 6, 14), Field(bytes, 14, 18), Field(bytes, 18, 26))
  }

  function EncodeText(r: Request): (text: string) {
    Base64Url.Encode(Bytes(r))
  }

  function DecodeText(text: string): (result: Result<Request, DecodeError>) {
    if |text| != TEXT_LENGTH then Failure(UNEXPECTED_LENGTH(|text|))
    else if !Base64Url.AllDigits(text) then Failure(NOT_BASE64)
    else Success(FromBytes(Base64Url.Decode(text)))
  }

  method Encode(request: Request) returns (text: string)
    ensures text == EncodeText(request)
  {
    hide LittleEndian, TypeToByte, Base64Url.Encode;
    var data := new uint8[DATA_LENGTH](_ => 0);
    Store(data, 0, 4, request.sequence);
    data[4] := TypeToByte(request.requestType);
    data[5] := request.userId;
    assert data[..6] == LittleEndian(request.sequence, 4) + [TypeToByte(request.requestType), request.userId];
    Store(data, 6, 8, request.orderId);
    assert data[..14] == data[..6] + LittleEndian(request.orderId, 8);
    Store(data, 14, 4, request.version);
    assert data[..18] == data[..14] + LittleEndian(request.version, 4);
    Store(data, 18, 8, request.orderId2);
    assert data[..26] == data[..18] + LittleEndian(request.orderId2, 8);
    data[26] := 0;
    assert data[..] == Bytes(request);
    text := Base64Url.Encode(data[..]);
  }

  method Decode(text: string) returns (result: Result<Request, DecodeError>)
    ensures result == DecodeText(text)
  {
    if |text| != TEXT_LENGTH {
      return Failure(UNEXPECTED_LENGTH(|text|));
    }
    if !Base64Url.AllDigits(text) {
      return Failure(NOT_BASE64);
    }
    var bytes := Base64Url.Decode(text);
    var data := new uint8[DATA_LENGTH](i requires 0 <= i < DATA_LENGTH => bytes[i]);
    assert data[..] == bytes;
    ghost var spec := FromBytes(bytes);
    assert bytes[0..4] == data[0..4] && bytes[6..14] == data[6..14] && bytes[14..18] == data[14..18] && bytes[18..26] == data[18..26];
    var sequence := Load(data, 0, 4);
    var orderId := Load(data, 6, 8);
    var version := Load(data, 14, 4);
    var orderId2 := Load(data, 18, 8);
    assert sequence == spec.sequence && orderId == spec.orderId && version == spec.version && orderId2 == spec.orderId2;
    result := Success(Request(sequence, ByteToType(data[4]), data[5], orderId, version, orderId2));
  }

  // --- properties

  lemma ByteTypeRoundTrip(t: WSAPIType)
    ensures ByteToType(TypeToByte(t)) == t
  {
  }

  /** Reading the six fields back from the layout. */
  lemma FromBytesBytes(r: Request)
    ensures FromBytes(Bytes(r)) == r
  {
    var b := Bytes(r);
    assert b[0..4] == LittleEndian(r.sequence, 4);
    assert b[6..14] == LittleEndian(r.orderId, 8);
    assert b[14..18] == LittleEndian(r.version, 4);
    assert b[18..26] == LittleEndian(r.orderId2, 8);
    Capacities();
    StoreThenLoad(r.sequence, 4);
    StoreThenLoad(r.orderId, 8);
    StoreThenLoad(r.version, 4);
    StoreThenLoad(r.orderId2, 8);
    ByteTypeRoundTrip(r.requestType);
  }

  /** Laying the fields out again restores every byte but the last one, which becomes zero. */
  lemma BytesFromBytes(bytes: seq<uint8>)
    requires |bytes| == DATA_LENGTH
    ensures Bytes(FromBytes(bytes)) == bytes[..26] + [0]
  {
    LoadThenStore(bytes[0..4]);
    LoadThenStore(bytes[6..14]);
    LoadThenStore(bytes[14..18]);
    LoadThenStore(bytes[18..26]);
    assert bytes[..26] == bytes[0..4] + [bytes[4], bytes[5]] + bytes[6..14] + bytes[14..18] + bytes[18..26];
  }

  /** Every request survives the round trip, and its text has the shape the exchange asks for. */
  lemma RoundTrip(r: Request)
    ensures |EncodeText(r)| == TEXT_LENGTH && Base64Url.AllDigits(EncodeText(r))
    ensures DecodeText(EncodeText(r)) == Success(r)
  {
    Base64Url.RoundTrip(Bytes(r));
    FromBytesBytes(r);
  }

  lemma Injective(r: Request, s: Request)
    requires EncodeText(r) == EncodeText(s)
    ensures r == s
  {
    RoundTrip(r);
    RoundTrip(s);
  }

  /** The eight bits that carry the 27th byte, read off the last two characters. */
  predicate LastByteIsZero(text: string)
    requires |text| == TEXT_LENGTH && Base64Url.AllDigits(text)
  {
    Base64Url.Value(text[34]) % 4 == 0 && text[35] == 'A'
  }

  lemma {:induction false} LastBlock(text: string)
    requires |text| > 0 && |text| % 4 == 0 && Base64Url.AllDigits(text)
    ensures var bytes := Base64Url.Decode(text);
            bytes[|bytes| - 1] == Base64Url.Value(text[|text| - 2]) % 4 * 64 + Base64Url.Value(text[|text| - 1])
  {
    if |text| > 4 {
      LastBlock(text[4..]);
      assert text[4..][|text| - 4 - 2] == text[|text| - 2] && text[4..][|text| - 4 - 1] == text[|text| - 1];
    }
  }

  lemma LastByte(text: string)
    requires |text| == TEXT_LENGTH && Base64Url.AllDigits(text)
    ensures Base64Url.Decode(text)[26] == 0 <==> LastByteIsZero(text)
  {
    LastBlock(text);
    Base64Url.ValueDigit(text[35]);
  }

  lemma EncodeInjective(a: seq<uint8>, b: seq<uint8>)
    requires |a| % 3 == 0 && |b| % 3 == 0
    requires Base64Url.Encode(a) == Base64Url.Encode(b)
    ensures a == b
  {
    Base64Url.RoundTrip(a);
    Base64Url.RoundTrip(b);
  }

  /** Texts that decode are exactly the 36 character texts of the alphabet, and such a text is the
      encoding of what it decodes to if and only if its 27th byte is zero. */
  lemma RoundTripBack(text: string)
    ensures DecodeText(text).Success? <==> |text| == TEXT_LENGTH && Base64Url.AllDigits(text)
    ensures DecodeText(text).Success? ==> (EncodeText(DecodeText(text).value) == text <==> LastByteIsZero(text))
  {
    if DecodeText(text).Success? {
      var bytes := Base64Url.Decode(text);
      var again := bytes[..26] + [0];
      calc {
        EncodeText(DecodeText(text).value) == text;
        { BytesFromBytes(bytes); Base64Url.RoundTripBack(text); }
        Base64Url.Encode(again) == Base64Url.Encode(bytes);
        { if Base64Url.Encode(again) == Base64Url.Encode(bytes) { EncodeInjective(again, bytes); } }
        again == bytes;
        { assert bytes == bytes[..26] + [bytes[26]]; }
        bytes[26] == 0;
        { LastByte(text); }
        LastByteIsZero(text);
      }
    }
  }
}
