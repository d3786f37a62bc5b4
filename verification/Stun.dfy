/**
 * How RFC 5389 reads a message: a decoder written from its sections 6, 15 and 15.2, knowing nothing of
 * the code that prints one.
 */
module StunFormat {
  import opened Base
  import opened Options

  const BINDING_REQUEST: bv16 := 0x0001
  const BINDING_SUCCESS_RESPONSE: bv16 := 0x0101
  const XOR_MAPPED_ADDRESS: bv16 := 0x0020
  const MAGIC_COOKIE: seq<Byte> := [0x21, 0x12, 0xA4, 0x42]
  const COOKIE_HIGH: bv16 := 0x2112

  datatype Endpoint = V4(ip: seq<Byte>, port: bv16) | V6(ip: seq<Byte>, port: bv16)

  datatype Attribute = Attribute(kind: bv16, value: seq<Byte>)

  datatype Message = Message(kind: bv16, transactionID: seq<Byte>, attributes: seq<Attribute>)

  /** Network byte order. */
  function Uint16(b: seq<Byte>, at: nat): bv16
    requires at + 2 <= |b|
  {
    ((b[at] as bv16) << 8) | (b[at + 1] as bv16)
  }

  function Xor(a: seq<Byte>, mask: seq<Byte>): (r: seq<Byte>)
    requires |a| <= |mask|
    ensures |r| == |a|
  {
    seq(|a|, i requires 0 <= i < |a| => a[i] ^ mask[i])
  }

  lemma XorTwice(a: seq<Byte>, mask: seq<Byte>)
    requires |a| <= |mask|
    ensures Xor(Xor(a, mask), mask) == a
  {}

  function PaddedLength(length: nat): (r: nat)
    ensures r >= length
  {
    (length + 3) / 4 * 4
  }

  /** Section 15: type, length, value, and padding up to a multiple of four bytes. */
  function ParseAttributes(b: seq<Byte>): Option<seq<Attribute>>
    decreases |b|
  {
    if b == [] then Some([])
    else if |b| < 4 then None
    else
      var length := Uint16(b, 2) as int;
      if |b| < 4 + PaddedLength(length) then None
      else
        match ParseAttributes(b[4 + PaddedLength(length)..])
        case None => None
        case Some(rest) => Some([Attribute(Uint16(b, 0), b[4..4 + length])] + rest)
  }

  /** Section 6: two zero bits, the type, the length of what follows the header, the cookie, the transaction id. */
  predicate WellFramed(b: seq<Byte>) {
    && |b| >= 20 && b[0] & 0xC0 == 0 && b[4..8] == MAGIC_COOKIE
    && Uint16(b, 2) as int % 4 == 0 && |b| == 20 + Uint16(b, 2) as int
  }

  function Parse(b: seq<Byte>): Option<Message> {
    if !WellFramed(b) then None
    else
      match ParseAttributes(b[20..])
      case None => None
      case Some(attributes) => Some(Message(Uint16(b, 0), b[8..20], attributes))
  }

  /** Section 15.2: the port is masked by the cookie's high half, the address by the cookie and the transaction id. */
  function Unmask(value: seq<Byte>, transactionID: seq<Byte>): Option<Endpoint>
    requires |transactionID| == 12
  {
    if |value| == 8 && value[1] == 0x01 then
      Some(V4(Xor(value[4..], MAGIC_COOKIE), Uint16(value, 2) ^ COOKIE_HIGH))
    else if |value| == 20 && value[1] == 0x02 then
      Some(V6(Xor(value[4..], MAGIC_COOKIE + transactionID), Uint16(value, 2) ^ COOKIE_HIGH))
    else
      None
  }

  /** What a client learns from a message: the first XOR-MAPPED-ADDRESS in it. */
  function MappedAddress(attributes: seq<Attribute>, transactionID: seq<Byte>): Option<Endpoint>
    requires |transactionID| == 12
  {
    if attributes == [] then None
    else if attributes[0].kind == XOR_MAPPED_ADDRESS then Unmask(attributes[0].value, transactionID)
    else MappedAddress(attributes[1..], transactionID)
  }

  lemma NoPadding(length: nat)
    requires length % 4 == 0
    ensures PaddedLength(length) == length
  {}

  /** One attribute that needs no padding parses to itself. */
  lemma ParseOne(b: seq<Byte>, length: nat)
    requires |b| == 4 + length && length % 4 == 0 && Uint16(b, 2) as int == length
    ensures ParseAttributes(b) == Some([Attribute(Uint16(b, 0), b[4..])])
  {
    NoPadding(length);
    assert b[4..4 + length] == b[4..] && b[4 + length..] == [];
    var none: seq<Attribute> := [];
    var one := Attribute(Uint16(b, 0), b[4..]);
    assert ParseAttributes(b[4 + length..]) == Some(none);
    assert [one] + none == [one];
  }
}

/** The Binding responder of stun.go, filling its byte buffers in place. */
module Stun {
  import opened Base
  import opened Options
  import opened StunFormat

  const HEADER_SIZE := 20
  const COOKIE: bv32 := 0x2112A442

  /** net.Addr: what a packet came from. */
  datatype Remote = Udp(ip: seq<Byte>, port: int) | OtherAddr

  // ---------------------------------------------------------------- net.IP, encoding/binary

  predicate V4Mapped(ip: seq<Byte>) {
    |ip| == 16 && (forall i :: 0 <= i < 10 ==> ip[i] == 0) && ip[10] == 0xFF && ip[11] == 0xFF
  }

  function To4(ip: seq<Byte>): (r: Option<seq<Byte>>)
    ensures r.Some? ==> |r.value| == 4
  {
    if |ip| == 4 then Some(ip) else if V4Mapped(ip) then Some(ip[12..]) else None
  }

  /** uint16(n) keeps the low sixteen bits. */
  function Low16(n: int): bv16 {
    (n % 0x1_0000) as bv16
  }

  function BigEndian16(v: bv16): seq<Byte> {
    [(v >> 8) as Byte, (v & 0xFF) as Byte]
  }

  function BigEndian32(v: bv32): seq<Byte> {
    [(v >> 24) as Byte, ((v >> 16) & 0xFF) as Byte, ((v >> 8) & 0xFF) as Byte, (v & 0xFF) as Byte]
  }

  lemma ReadsBack(b: seq<Byte>, at: nat, v: bv16)
    requires at + 2 <= |b| && b[at..at + 2] == BigEndian16(v)
    ensures Uint16(b, at) == v
  {}

  lemma CookieBytes()
    ensures BigEndian32(COOKIE) == MAGIC_COOKIE
    ensures (COOKIE >> 16) as bv16 == COOKIE_HIGH
  {}

  /** dst[at..] overwritten by src */
  function Overwrite(dst: seq<Byte>, at: nat, src: seq<Byte>): (r: seq<Byte>)
    requires at + |src| <= |dst|
    ensures |r| == |dst|
  {
    dst[..at] + src + dst[at + |src|..]
  }

  method Copy(dst: array<Byte>, at: nat, src: seq<Byte>)
    requires at + |src| <= dst.Length
    modifies dst
    ensures dst[..] == Overwrite(old(dst[..]), at, src)
  {
    for i := 0 to |src|
      invariant dst[..at] == old(dst[..at]) && dst[at + |src|..] == old(dst[at + |src|..])
      invariant forall j :: 0 <= j < i ==> dst[at + j] == src[j]
    {
      dst[at + i] := src[i];
    }
    assert dst[at..at + |src|] == src;
    assert dst[..] == dst[..at] + dst[at..at + |src|] + dst[at + |src|..];
  }

  // ---------------------------------------------------------------- what the two functions promise

  /** Exactly when a packet is answered. */
  predicate Answered(packet: seq<Byte>, remote: Remote) {
    && |packet| >= HEADER_SIZE
    && Uint16(packet, 0) == BINDING_REQUEST
    && Uint16(packet, 2) as int % 4 == 0
    && HEADER_SIZE + Uint16(packet, 2) as int <= |packet|
    && packet[4..8] == MAGIC_COOKIE
    && remote.Udp?
    && |remote.ip| in {4, 16}
  }

  /** The address a client should learn: v4-mapped v6 addresses in v4 form. */
  function Seen(remote: Remote): Endpoint
    requires remote.Udp?
  {
    match To4(remote.ip)
    case Some(ip4) => V4(ip4, Low16(remote.port))
    case None => V6(remote.ip, Low16(remote.port))
  }

  function FamilyOf(e: Endpoint): Byte {
    if e.V4? then 0x01 else 0x02
  }

  function LengthOf(e: Endpoint): bv16 {
    if e.V4? then 8 else 20
  }

  function AttributeBytes(e: Endpoint, transactionID: seq<Byte>): seq<Byte>
    requires |e.ip| <= 4 + |transactionID|
  {
    BigEndian16(XOR_MAPPED_ADDRESS) + BigEndian16(LengthOf(e)) + [0, FamilyOf(e)]
    + BigEndian16(e.port ^ COOKIE_HIGH) + Xor(e.ip, MAGIC_COOKIE + transactionID)
  }

  function HeaderBytes(length: nat, transactionID: seq<Byte>): seq<Byte> {
    BigEndian16(BINDING_SUCCESS_RESPONSE) + BigEndian16(Low16(length)) + MAGIC_COOKIE + transactionID
  }

  function ResponseBytes(e: Endpoint, transactionID: seq<Byte>): seq<Byte>
    requires |transactionID| == 12 && |e.ip| <= 16
  {
    HeaderBytes(8 + |e.ip|, transactionID) + AttributeBytes(e, transactionID)
  }

  // ---------------------------------------------------------------- the code

  /** 212-214, 201-203: the address, masked byte by byte into the buffer. */
  method MaskInto(attr: array<Byte>, ip: seq<Byte>, mask: array<Byte>)
    requires attr != mask && attr.Length == 8 + |ip| && |ip| <= mask.Length
    modifies attr
    ensures attr[..] == old(attr[..8]) + Xor(ip, mask[..])
  {
    for i := 0 to |ip|
      invariant attr[..8] == old(attr[..8])
      invariant forall j :: 0 <= j < i ==> attr[8 + j] == ip[j] ^ mask[j]
    {
      attr[8 + i] := ip[i] ^ mask[i];
    }
    assert attr[..] == attr[..8] + attr[8..];
    assert attr[8..] == Xor(ip, mask[..]);
  }

  /** Where the pieces before the address land. */
  lemma AttributeLayout(zero: seq<Byte>, length: bv16, family: Byte, port: bv16)
    requires |zero| >= 8 && zero[4] == 0
    ensures
      var b1 := Overwrite(zero, 0, BigEndian16(XOR_MAPPED_ADDRESS));
      var b2 := Overwrite(b1, 2, BigEndian16(length));
      var b3 := b2[5 := family];
      var b4 := Overwrite(b3, 6, BigEndian16(port));
      b4[..8] == BigEndian16(XOR_MAPPED_ADDRESS) + BigEndian16(length) + [0, family] + BigEndian16(port)
  {}

  /** The eight bytes before the address: type, length, zero, family, port. */
  method AttributeHeader(length: bv16, family: Byte, port: int, size: nat) returns (attr: array<Byte>)
    requires size >= 8
    ensures fresh(attr) && attr.Length == size
    ensures attr[..8] == BigEndian16(XOR_MAPPED_ADDRESS) + BigEndian16(length) + [0, family]
                         + BigEndian16(Low16(port) ^ (COOKIE >> 16) as bv16)
  {
    attr := new Byte[size](_ => 0);
    AttributeLayout(attr[..], length, family, Low16(port) ^ (COOKIE >> 16) as bv16);
    Copy(attr, 0, BigEndian16(XOR_MAPPED_ADDRESS));
    Copy(attr, 2, BigEndian16(length));
    ghost var before := attr[..];
    attr[5] := family;
    assert attr[..] == before[5 := family];
    Copy(attr, 6, BigEndian16(Low16(port) ^ (COOKIE >> 16) as bv16));
    assert attr[..8] == attr[..][..8];
  }

  /** 190-203 */
  method V4Attribute(ip4: seq<Byte>, port: int, transactionID: seq<Byte>) returns (attr: array<Byte>)
    requires |ip4| == 4
    ensures fresh(attr) && attr[..] == AttributeBytes(V4(ip4, Low16(port)), transactionID)
  {
    CookieBytes();
    attr := AttributeHeader(8, 0x01, port, 12);
    var cookie := new Byte[4](_ => 0);
    Copy(cookie, 0, BigEndian32(COOKIE));
    assert cookie[..] == MAGIC_COOKIE;
    MaskInto(attr, ip4, cookie);
    assert Xor(ip4, MAGIC_COOKIE) == Xor(ip4, MAGIC_COOKIE + transactionID);
  }

  lemma MaskBytes(zero: seq<Byte>, transactionID: seq<Byte>)
    requires |zero| == 16 && |transactionID| == 12
    ensures Overwrite(Overwrite(zero, 0, MAGIC_COOKIE), 4, transactionID) == MAGIC_COOKIE + transactionID
  {}

  /** 214-216 */
  method AddressMask(transactionID: seq<Byte>) returns (mask: array<Byte>)
    requires |transactionID| == 12
    ensures fresh(mask) && mask[..] == MAGIC_COOKIE + transactionID
  {
    CookieBytes();
    mask := new Byte[16](_ => 0);
    MaskBytes(mask[..], transactionID);
    Copy(mask, 0, BigEndian32(COOKIE));
    Copy(mask, 4, transactionID);
  }

  /** 205-220 */
  method V6Attribute(ip16: seq<Byte>, port: int, transactionID: seq<Byte>) returns (attr: array<Byte>)
    requires |ip16| == 16 && |transactionID| == 12
    ensures fresh(attr) && attr[..] == AttributeBytes(V6(ip16, Low16(port)), transactionID)
  {
    CookieBytes();
    var mask := AddressMask(transactionID);
    attr := AttributeHeader(20, 0x02, port, 24);
    MaskInto(attr, ip16, mask);
  }

  /** 187-220 */
  method BuildXORMappedAddressAttribute(ip: seq<Byte>, port: int, transactionID: seq<Byte>) returns (attr: Option<array<Byte>>)
    ensures attr.Some? <==> |ip| == 4 || (|ip| == 16 && (V4Mapped(ip) || |transactionID| == 12))
    ensures attr.Some? ==> fresh(attr.value) && attr.value[..] == AttributeBytes(Seen(Udp(ip, port)), transactionID)
  {
    var ip4 := To4(ip);
    if ip4.Some? {
      var a := V4Attribute(ip4.value, port, transactionID);
      return Some(a);
    }
    if |ip| != 16 || |transactionID| != 12 { return None; }
    var a := V6Attribute(ip, port, transactionID);
    return Some(a);
  }

  /** Where the five pieces of a response land. */
  lemma ResponseLayout(zero: seq<Byte>, transactionID: seq<Byte>, body: seq<Byte>)
    requires |zero| == 20 + |body| && |transactionID| == 12
    ensures
      var b1 := Overwrite(zero, 0, BigEndian16(BINDING_SUCCESS_RESPONSE));
      var b2 := Overwrite(b1, 2, BigEndian16(Low16(|body|)));
      var b3 := Overwrite(b2, 4, MAGIC_COOKIE);
      var b4 := Overwrite(b3, 8, transactionID);
      Overwrite(b4, 20, body) == HeaderBytes(|body|, transactionID) + body
  {}

  /** 176-182 */
  method Respond(transactionID: seq<Byte>, body: seq<Byte>) returns (response: array<Byte>)
    requires |transactionID| == 12
    ensures response[..] == HeaderBytes(|body|, transactionID) + body
  {
    CookieBytes();
    response := new Byte[HEADER_SIZE + |body|](_ => 0);
    ResponseLayout(response[..], transactionID, body);
    Copy(response, 0, BigEndian16(BINDING_SUCCESS_RESPONSE));
    Copy(response, 2, BigEndian16(Low16(|body|)));
    Copy(response, 4, BigEndian32(COOKIE));
    Copy(response, 8, transactionID);
    Copy(response, 20, body);
  }

  /** 149-183 */
  method BuildSTUNBindingResponse(packet: seq<Byte>, remote: Remote) returns (response: Option<array<Byte>>)
    ensures response.Some? <==> Answered(packet, remote)
    ensures response.Some? ==> response.value[..] == ResponseBytes(Seen(remote), packet[8..20])
  {
    if |packet| < HEADER_SIZE { return None; }
    if Uint16(packet, 0) != BINDING_REQUEST { return None; }
    var messageLength := Uint16(packet, 2) as int;
    if messageLength % 4 != 0 || HEADER_SIZE + messageLength > |packet| { return None; }
    CookieBytes();
    if packet[4..8] != BigEndian32(COOKIE) { return None; }
    if !remote.Udp? { return None; }
    var transactionID := packet[8..20];
    var attr := BuildXORMappedAddressAttribute(remote.ip, remote.port, transactionID);
    if attr.None? { return None; }
    var r := Respond(transactionID, attr.value[..]);
    return Some(r);
  }

  // ---------------------------------------------------------------- what the bytes mean

  lemma AttributeReads(e: Endpoint, transactionID: seq<Byte>)
    requires |transactionID| == 12 && |e.ip| == (if e.V4? then 4 else 16)
    ensures
      var b := AttributeBytes(e, transactionID);
      && |b| == 8 + |e.ip| && Uint16(b, 0) == XOR_MAPPED_ADDRESS && Uint16(b, 2) as int == 4 + |e.ip|
      && b[5] == FamilyOf(e) && Uint16(b, 6) == e.port ^ COOKIE_HIGH
      && b[8..] == Xor(e.ip, MAGIC_COOKIE + transactionID)
  {}

  /** The value of the attribute unmasks to the endpoint it was made from. */
  lemma UnmaskAttribute(e: Endpoint, transactionID: seq<Byte>)
    requires |transactionID| == 12 && |e.ip| == (if e.V4? then 4 else 16)
    ensures Unmask(AttributeBytes(e, transactionID)[4..], transactionID) == Some(e)
  {
    AttributeReads(e, transactionID);
    var value := AttributeBytes(e, transactionID)[4..];
    assert value[4..] == AttributeBytes(e, transactionID)[8..];
    assert (e.port ^ COOKIE_HIGH) ^ COOKIE_HIGH == e.port;
    if e.V4? {
      assert Xor(e.ip, MAGIC_COOKIE + transactionID) == Xor(e.ip, MAGIC_COOKIE);
      XorTwice(e.ip, MAGIC_COOKIE);
    } else {
      XorTwice(e.ip, MAGIC_COOKIE + transactionID);
    }
  }

  lemma HeaderReads(length: nat, transactionID: seq<Byte>, body: seq<Byte>)
    requires |transactionID| == 12 && length < 0x1_0000
    ensures
      var b := HeaderBytes(length, transactionID) + body;
      && |b| == 20 + |body| && b[0] & 0xC0 == 0 && Uint16(b, 0) == BINDING_SUCCESS_RESPONSE
      && Uint16(b, 2) as int == length && b[4..8] == MAGIC_COOKIE && b[8..20] == transactionID && b[20..] == body
  {
    var b := HeaderBytes(length, transactionID) + body;
    assert b[0..2] == BigEndian16(BINDING_SUCCESS_RESPONSE);
    ReadsBack(b, 0, BINDING_SUCCESS_RESPONSE);
    assert b[0] == b[0..2][0] == 0x01;
    assert b[2..4] == BigEndian16(Low16(length));
    ReadsBack(b, 2, Low16(length));
    SixteenBitsSurvive(length);
  }

  /**
   * A response is a well-formed Binding success response with the request's transaction id and one
   * attribute, from which a client recovers exactly the endpoint.
   */
  lemma ResponseParses(e: Endpoint, transactionID: seq<Byte>)
    requires |transactionID| == 12 && |e.ip| == (if e.V4? then 4 else 16)
    ensures
      var m := Parse(ResponseBytes(e, transactionID));
      && m.Some? && m.value.kind == BINDING_SUCCESS_RESPONSE && m.value.transactionID == transactionID
      && |m.value.attributes| == 1
      && MappedAddress(m.value.attributes, transactionID) == Some(e)
  {
    var body := AttributeBytes(e, transactionID);
    AttributeReads(e, transactionID);
    HeaderReads(8 + |e.ip|, transactionID, body);
    ParseOne(body, 4 + |e.ip|);
    UnmaskAttribute(e, transactionID);
  }

  lemma SixteenBits(n: int)
    requires 0 <= n < 65536
    ensures (n % 0x10000) as bv16 as int == n
  {}

  lemma SixteenBitsSurvive(n: int)
    requires 0 <= n < 0x1_0000
    ensures Low16(n) as int == n
  {
    SixteenBits(n);
  }

  /** Ten zero bytes and two of ones: a v4 address in the last four bytes. */
  predicate CarriesV4(ip: seq<Byte>) {
    |ip| == 16 && ip[..10] == [0, 0, 0, 0, 0, 0, 0, 0, 0, 0] && ip[10..12] == [0xFF, 0xFF]
  }

  /** e is the address and port that a packet came from. */
  predicate IsSource(e: Endpoint, ip: seq<Byte>, port: int) {
    && (if |ip| == 4 then e.V4? && e.ip == ip
        else if CarriesV4(ip) then e.V4? && |e.ip| == 4 && forall i :: 0 <= i < 4 ==> e.ip[i] == ip[12 + i]
        else e.V6? && e.ip == ip)
    && (0 <= port < 0x1_0000 ==> e.port as int == port)
  }

  lemma CarriesMapped(ip: seq<Byte>)
    ensures CarriesV4(ip) <==> V4Mapped(ip)
  {
    if V4Mapped(ip) { assert ip[..10] == [0, 0, 0, 0, 0, 0, 0, 0, 0, 0] && ip[10..12] == [0xFF, 0xFF]; }
    if CarriesV4(ip) {
      forall i | 0 <= i < 10 ensures ip[i] == 0 { assert ip[i] == ip[..10][i]; }
      assert ip[10] == ip[10..12][0] && ip[11] == ip[10..12][1];
    }
  }

  /** The endpoint put into a response is where the packet came from. */
  lemma SeenIsSource(remote: Remote)
    requires remote.Udp?
    ensures IsSource(Seen(remote), remote.ip, remote.port)
  {
    CarriesMapped(remote.ip);
    if 0 <= remote.port < 0x1_0000 { SixteenBitsSurvive(remote.port); }
  }

  /**
   * The round trip: for every packet that is answered, from every v4 or v6 address and port, a client
   * decoding the response by section 15.2 learns the address and the port its packet came from.
   */
  lemma ClientLearnsItsAddress(packet: seq<Byte>, remote: Remote)
    requires Answered(packet, remote)
    ensures
      var m := Parse(ResponseBytes(Seen(remote), packet[8..20]));
      && m.Some? && m.value.kind == BINDING_SUCCESS_RESPONSE && m.value.transactionID == packet[8..20]
      && var e := MappedAddress(m.value.attributes, packet[8..20]);
         e.Some? && IsSource(e.value, remote.ip, remote.port)
  {
    ResponseParses(Seen(remote), packet[8..20]);
    SeenIsSource(remote);
  }

  /** The packet begins with n bytes that section 6 frames as a Binding request. */
  predicate BeginsWithRequest(packet: seq<Byte>, n: nat) {
    20 <= n <= |packet| && WellFramed(packet[..n]) && Uint16(packet[..n], 0) == BINDING_REQUEST
  }

  lemma PrefixReads(packet: seq<Byte>, n: nat)
    requires 20 <= n <= |packet|
    ensures Uint16(packet[..n], 0) == Uint16(packet, 0) && Uint16(packet[..n], 2) == Uint16(packet, 2)
    ensures packet[..n][4..8] == packet[4..8] && packet[..n][0] == packet[0]
  {
    assert forall i :: 4 <= i < 8 ==> packet[..n][4..8][i - 4] == packet[i];
  }

  lemma RequestTopBits(b: seq<Byte>)
    requires |b| >= 2 && Uint16(b, 0) == BINDING_REQUEST
    ensures b[0] & 0xC0 == 0
  {}

  /**
   * Exactly the packets that begin with a Binding request framed by section 6 and come from a v4 or v6
   * address are answered, whatever attributes they carry and whatever follows.
   */
  lemma AnsweredIffRequest(packet: seq<Byte>, remote: Remote)
    ensures Answered(packet, remote) <==>
      remote.Udp? && (|remote.ip| == 4 || |remote.ip| == 16) && exists n :: BeginsWithRequest(packet, n)
  {
    if Answered(packet, remote) {
      var n := 20 + Uint16(packet, 2) as int;
      PrefixReads(packet, n);
      RequestTopBits(packet);
      assert BeginsWithRequest(packet, n);
    }
    if n :| BeginsWithRequest(packet, n) { PrefixReads(packet, n); }
  }

  /** No response is itself answered, so two responders never echo each other. */
  lemma ResponsesAreNotAnswered(packet: seq<Byte>, remote: Remote, other: Remote)
    requires Answered(packet, remote)
    ensures !Answered(ResponseBytes(Seen(remote), packet[8..20]), other)
  {}

  /** Two responses are the same bytes only for the same transaction and the same endpoint. */
  lemma ResponsesTellApart(e: Endpoint, t: seq<Byte>, f: Endpoint, u: seq<Byte>)
    requires |t| == 12 && |e.ip| == (if e.V4? then 4 else 16)
    requires |u| == 12 && |f.ip| == (if f.V4? then 4 else 16)
    ensures ResponseBytes(e, t) == ResponseBytes(f, u) <==> (e == f && t == u)
  {
    ResponseParses(e, t);
    ResponseParses(f, u);
  }
}
