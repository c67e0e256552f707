/**
The STUN client: the binding request, and the search of a binding response for
the address the server saw.

The responses are also described from the server's side, as sections 6 and 15
of RFC 5389 lay them out: a header, then attributes padded to four octets, the
address masked with the magic cookie and the transaction.
*/
module Stun {
  import opened Common

  const COOKIE := 0x2112_A442
  const HEADER_LEN := 20
  const BINDING_REQUEST := 0x0001
  const BINDING_SUCCESS := 0x0101
  const XOR_MAPPED_ADDRESS := 0x0020

  datatype SocketAddr = V4(octets: seq<byte>, port: nat) | V6(octets: seq<byte>, port: nat)

  predicate ValidAddr(a: SocketAddr) {
    a.port < 0x1_0000 && |a.octets| == if a.V4? then 4 else 16
  }

  // ---------- exclusive or ----------

  function Pow2(w: nat): nat {
    if w == 0 then 1 else 2 * Pow2(w - 1)
  }

  /** Exclusive or of the low `w` bits. */
  function Xor(a: nat, b: nat, w: nat): (r: nat)
    ensures r < Pow2(w)
  {
    if w == 0 then 0 else (a % 2 + b % 2) % 2 + 2 * Xor(a / 2, b / 2, w - 1)
  }

  lemma XorSplit(a: nat, b: nat, w: nat)
    requires w > 0
    ensures Xor(a, b, w) % 2 == (a % 2 + b % 2) % 2 && Xor(a, b, w) / 2 == Xor(a / 2, b / 2, w - 1)
  {
    Halves((a % 2 + b % 2) % 2, Xor(a / 2, b / 2, w - 1));
  }

  lemma Halves(bit: nat, half: nat)
    requires bit < 2
    ensures (bit + 2 * half) % 2 == bit && (bit + 2 * half) / 2 == half
  {
  }

  lemma BitTwice(x: nat, y: nat)
    requires x < 2 && y < 2
    ensures ((x + y) % 2 + y) % 2 == x
  {
  }

  /** Masking twice with the same bits changes nothing. */
  lemma {:induction false} XorTwice(a: nat, b: nat, w: nat)
    requires a < Pow2(w)
    ensures Xor(Xor(a, b, w), b, w) == a
  {
    if w > 0 {
      XorTwice(a / 2, b / 2, w - 1);
      XorSplit(a, b, w);
      XorSplit(Xor(a, b, w), b, w);
      BitTwice(a % 2, b % 2);
    }
  }

  lemma Widths()
    ensures Pow2(8) == 0x100 && Pow2(16) == 0x1_0000
  {
    assert Pow2(4) == 0x10;
    assert Pow2(8) == 0x100;
    assert Pow2(12) == 0x1000;
  }

  /** One bit of a number. */
  function Bit(n: nat, i: nat): nat {
    if i == 0 then n % 2 else Bit(n / 2, i - 1)
  }

  /** Bit by bit, the exclusive or has a one exactly where its operands differ. */
  lemma {:induction false} XorBits(a: nat, b: nat, w: nat, i: nat)
    requires i < w
    ensures Bit(Xor(a, b, w), i) == if Bit(a, i) != Bit(b, i) then 1 else 0
  {
    XorSplit(a, b, w);
    if i > 0 {
      XorBits(a / 2, b / 2, w - 1, i - 1);
    }
  }

  /** So masking flips exactly the bits of the mask. */
  lemma MaskFlips(a: byte, b: byte, i: nat)
    requires i < 8
    ensures Bit(Mask8(a, b), i) == if Bit(b, i) == 1 then 1 - Bit(a, i) else Bit(a, i)
  {
    XorBits(a, b, 8, i);
    BitIsBit(a, i);
    BitIsBit(b, i);
  }

  lemma MaskFlips16(a: nat, b: nat, i: nat)
    requires i < 16
    ensures Bit(Mask16(a, b), i) == if Bit(b, i) == 1 then 1 - Bit(a, i) else Bit(a, i)
  {
    XorBits(a, b, 16, i);
    BitIsBit(a, i);
    BitIsBit(b, i);
  }

  lemma {:induction false} BitIsBit(n: nat, i: nat)
    ensures Bit(n, i) < 2
  {
    if i > 0 {
      BitIsBit(n / 2, i - 1);
    }
  }

  function Mask8(a: byte, b: byte): byte {
    Widths();
    Xor(a, b, 8)
  }

  function Mask16(a: nat, b: nat): (r: nat)
    ensures r < 0x1_0000
  {
    Widths();
    Xor(a, b, 16)
  }

  /** Octets masked with the first octets of a key. */
  function MaskAll(s: seq<byte>, key: seq<byte>): (r: seq<byte>)
    requires |s| <= |key|
    ensures |r| == |s| && forall i | 0 <= i < |s| :: r[i] == Mask8(s[i], key[i])
  {
    seq(|s|, i requires 0 <= i < |s| => Mask8(s[i], key[i]))
  }

  lemma MaskAllTwice(s: seq<byte>, key: seq<byte>)
    requires |s| <= |key|
    ensures MaskAll(MaskAll(s, key), key) == s
  {
    Widths();
    forall i | 0 <= i < |s|
      ensures MaskAll(MaskAll(s, key), key)[i] == s[i]
    {
      XorTwice(s[i], key[i], 8);
    }
  }

  lemma Mask16Twice(a: nat, b: nat)
    requires a < 0x1_0000
    ensures Mask16(Mask16(a, b), b) == a
  {
    Widths();
    XorTwice(a, b, 16);
  }

  // ---------- the client ----------

  function CookieBytes(): (bs: seq<byte>)
    ensures |bs| == 4
  {
    Be32(COOKIE)
  }

  function EncodeRequest(tx: seq<byte>): (bs: seq<byte>)
    requires |tx| == 12
    ensures |bs| == HEADER_LEN
  {
    Be16(BINDING_REQUEST) + Be16(0) + CookieBytes() + tx
  }

  /** The request as RFC 5389 lays it out: its type, an empty body, the cookie, the transaction. */
  lemma RequestOctets(tx: seq<byte>)
    requires |tx| == 12
    ensures EncodeRequest(tx) == [0x00, 0x01] + [0x00, 0x00] + [0x21, 0x12, 0xA4, 0x42] + tx
  {
    CookieOctets();
    Be16OfU16(0, 1);
    Be16OfU16(0, 0);
  }

  lemma CookieOctets()
    ensures CookieBytes() == [0x21, 0x12, 0xA4, 0x42]
  {
    Be32OfU32(0x21, 0x12, 0xA4, 0x42);
  }

  predicate LooksLikeStun(bytes: seq<byte>) {
    |bytes| >= HEADER_LEN && U32(bytes[4], bytes[5], bytes[6], bytes[7]) == COOKIE
  }

  function TxId(bytes: seq<byte>): Option<seq<byte>> {
    if |bytes| < HEADER_LEN then None else Some(bytes[8..20])
  }

  function ParseXorMapped(body: seq<byte>, key: seq<byte>): Option<SocketAddr>
    requires |key| == 16
  {
    if |body| < 4 then None
    else
      var port := Mask16(U16(body[2], body[3]), COOKIE / 0x1_0000);
      if body[1] == 1 then (if |body| < 8 then None else Some(V4(MaskAll(body[4..8], key), port)))
      else if body[1] == 2 then (if |body| < 20 then None else Some(V6(MaskAll(body[4..20], key), port)))
      else None
  }

  function Padded(len: nat): (n: nat)
    ensures len <= n < len + 4 && n % 4 == 0
  {
    (len + 3) / 4 * 4
  }

  /** The value of the first address attribute at or after offset `i`. */
  function FindMapped(bytes: seq<byte>, i: nat): Option<seq<byte>>
    decreases |bytes| - i
  {
    if i + 4 > |bytes| then None
    else
      var kind, len := U16(bytes[i], bytes[i + 1]), U16(bytes[i + 2], bytes[i + 3]);
      if i + 4 + len > |bytes| then None
      else if kind == XOR_MAPPED_ADDRESS then Some(bytes[i + 4..i + 4 + len])
      else FindMapped(bytes, i + 4 + Padded(len))
  }

  function ParseFound(value: Option<seq<byte>>, key: seq<byte>): Option<SocketAddr>
    requires |key| == 16
  {
    if value.None? then None else ParseXorMapped(value.value, key)
  }

  /** The message a success response consists of, without what follows it in the datagram. */
  function MessageOf(bytes: seq<byte>): (m: Option<seq<byte>>)
    ensures m.Some? ==> |m.value| >= HEADER_LEN
  {
    if |bytes| < HEADER_LEN then None
    else
      var end := HEADER_LEN + U16(bytes[2], bytes[3]);
      if U16(bytes[0], bytes[1]) != BINDING_SUCCESS || |bytes| < end || !LooksLikeStun(bytes) then None
      else Some(bytes[..end])
  }

  function KeyOf(message: seq<byte>): (key: seq<byte>)
    requires |message| >= HEADER_LEN
    ensures |key| == 16
  {
    CookieBytes() + message[8..20]
  }

  function Parse(bytes: seq<byte>): Option<SocketAddr> {
    var m := MessageOf(bytes);
    if m.None? then None else ParseFound(FindMapped(m.value, HEADER_LEN), KeyOf(m.value))
  }

  method CheckHeader(bytes: seq<byte>) returns (m: Option<seq<byte>>)
    ensures m == MessageOf(bytes)
  {
    if |bytes| < HEADER_LEN {
      return None;
    }
    if U16(bytes[0], bytes[1]) != BINDING_SUCCESS {
      return None;
    }
    var bodyLen := U16(bytes[2], bytes[3]);
    if |bytes| < HEADER_LEN + bodyLen {
      return None;
    }
    if U32(bytes[4], bytes[5], bytes[6], bytes[7]) != COOKIE {
      return None;
    }
    return Some(bytes[..HEADER_LEN + bodyLen]);
  }

  /** The client's walk over the attributes by offset, on any bytes at all. */
  method ParseBindingResponse(bytes: seq<byte>) returns (r: Option<SocketAddr>)
    ensures r == Parse(bytes)
  {
    var m := CheckHeader(bytes);
    if m.None? {
      return None;
    }
    var value := WalkAttributes(m.value);
    r := ParseFound(value, KeyOf(m.value));
  }

  method WalkAttributes(bytes: seq<byte>) returns (value: Option<seq<byte>>)
    requires |bytes| >= HEADER_LEN
    ensures value == FindMapped(bytes, HEADER_LEN)
  {
    var i, end := HEADER_LEN, |bytes|;
    while i + 4 <= end
      invariant HEADER_LEN <= i
      invariant FindMapped(bytes, HEADER_LEN) == FindMapped(bytes, i)
      decreases end - i
    {
      var kind, len := U16(bytes[i], bytes[i + 1]), U16(bytes[i + 2], bytes[i + 3]);
      var valStart := i + 4;
      var valEnd := valStart + len;
      if valEnd > end {
        return None;
      }
      if kind == XOR_MAPPED_ADDRESS {
        return Some(bytes[valStart..valEnd]);
      }
      i := valStart + Padded(len);
    }
    return None;
  }

  /** Nothing is read from a datagram that is not a success response with the cookie and all its attributes. */
  lemma ParseNeeds(bytes: seq<byte>)
    requires Parse(bytes).Some?
    ensures |bytes| >= 20 + U16(bytes[2], bytes[3]) && U16(bytes[0], bytes[1]) == 0x0101
    ensures U32(bytes[4], bytes[5], bytes[6], bytes[7]) == 0x2112_A442
  {
  }

  // ---------- the server ----------

  /** An attribute and the octets that pad its value to a multiple of four. */
  datatype Attr = Attr(kind: nat, value: seq<byte>, pad: seq<byte>)

  predicate ValidAttr(a: Attr) {
    a.kind < 0x1_0000 && |a.value| < 0x1_0000 && |a.value| + |a.pad| == Padded(|a.value|)
  }

  function EncodeAttr(a: Attr): (bs: seq<byte>)
    requires ValidAttr(a)
  {
    Be16(a.kind) + Be16(|a.value|) + a.value + a.pad
  }

  function EncodeAttrs(attrs: seq<Attr>): seq<byte>
    requires forall i | 0 <= i < |attrs| :: ValidAttr(attrs[i])
  {
    if attrs == [] then [] else EncodeAttr(attrs[0]) + EncodeAttrs(attrs[1..])
  }

  predicate ValidAttrs(attrs: seq<Attr>) {
    (forall i | 0 <= i < |attrs| :: ValidAttr(attrs[i])) && |EncodeAttrs(attrs)| < 0x1_0000
  }

  function Response(tx: seq<byte>, attrs: seq<Attr>): seq<byte>
    requires |tx| == 12 && ValidAttrs(attrs)
  {
    Be16(BINDING_SUCCESS) + Be16(|EncodeAttrs(attrs)|) + CookieBytes() + tx + EncodeAttrs(attrs)
  }

  /** The value of the attribute that tells a client its address. */
  function EncodeAddr(a: SocketAddr, tx: seq<byte>): seq<byte>
    requires ValidAddr(a) && |tx| == 12
  {
    [0, if a.V4? then 1 else 2] + Be16(Mask16(a.port, COOKIE / 0x1_0000)) + MaskAll(a.octets, CookieBytes() + tx)
  }

  /** The address attribute: the family, the port and the address, masked with the cookie and the transaction. */
  lemma AddrOctets(a: SocketAddr, tx: seq<byte>)
    requires ValidAddr(a) && |tx| == 12
    ensures EncodeAddr(a, tx) ==
            [0, if a.V4? then 1 else 2] + Be16(Mask16(a.port, 0x2112))
            + MaskAll(a.octets, [0x21, 0x12, 0xA4, 0x42] + tx)
  {
    CookieOctets();
  }

  /** The start of a response and of its address attribute, as RFC 5389 numbers them. */
  lemma ResponseOctets(tx: seq<byte>, attrs: seq<Attr>, value: seq<byte>, pad: seq<byte>)
    requires |tx| == 12 && ValidAttrs(attrs) && ValidAttr(Attr(XOR_MAPPED_ADDRESS, value, pad))
    ensures Response(tx, attrs) ==
            [0x01, 0x01] + Be16(|EncodeAttrs(attrs)|) + [0x21, 0x12, 0xA4, 0x42] + tx + EncodeAttrs(attrs)
    ensures EncodeAttr(Attr(XOR_MAPPED_ADDRESS, value, pad)) == [0x00, 0x20] + Be16(|value|) + value + pad
  {
    CookieOctets();
    Be16OfU16(1, 1);
    Be16OfU16(0, 0x20);
  }

  /** The first attribute of the kind that holds an address. */
  function FirstMapped(attrs: seq<Attr>): Option<Attr> {
    if attrs == [] then None
    else if attrs[0].kind == XOR_MAPPED_ADDRESS then Some(attrs[0])
    else FirstMapped(attrs[1..])
  }

  // ---------- the client reads what the server wrote ----------

  lemma AddrParts(family: byte, port: seq<byte>, octets: seq<byte>)
    requires |port| == 2
    ensures var body := [0, family] + port + octets;
            body[1] == family && body[2] == port[0] && body[3] == port[1] && body[4..4 + |octets|] == octets
  {
  }

  lemma AddrRoundTrip(a: SocketAddr, tx: seq<byte>)
    requires ValidAddr(a) && |tx| == 12
    ensures ParseXorMapped(EncodeAddr(a, tx), CookieBytes() + tx) == Some(a)
  {
    var key := CookieBytes() + tx;
    Mask16Twice(a.port, COOKIE / 0x1_0000);
    MaskAllTwice(a.octets, key);
    AddrParts(if a.V4? then 1 else 2, Be16(Mask16(a.port, COOKIE / 0x1_0000)), MaskAll(a.octets, key));
  }

  lemma AttrParts(pre: seq<byte>, kind: seq<byte>, len: seq<byte>, value: seq<byte>, pad: seq<byte>, more: seq<byte>)
    requires |kind| == |len| == 2
    ensures var s, i := pre + (kind + len + value + pad + more), |pre|;
            && s[i] == kind[0] && s[i + 1] == kind[1] && s[i + 2] == len[0] && s[i + 3] == len[1]
            && s[i + 4..i + 4 + |value|] == value
  {
  }

  lemma AttrAt(bytes: seq<byte>, i: nat, value: seq<byte>)
    requires i + 4 + |value| <= |bytes| && bytes[i + 4..i + 4 + |value|] == value
    requires U16(bytes[i + 2], bytes[i + 3]) == |value|
    ensures FindMapped(bytes, i) ==
            if U16(bytes[i], bytes[i + 1]) == XOR_MAPPED_ADDRESS then Some(value)
            else FindMapped(bytes, i + 4 + Padded(|value|))
  {
  }

  lemma AttrIsAt(pre: seq<byte>, a: Attr, more: seq<byte>)
    requires ValidAttr(a)
    ensures var bytes, i := pre + (EncodeAttr(a) + more), |pre|;
            && i + 4 + |a.value| <= |bytes| && bytes[i + 4..i + 4 + |a.value|] == a.value
            && U16(bytes[i], bytes[i + 1]) == a.kind && U16(bytes[i + 2], bytes[i + 3]) == |a.value|
            && |pre + EncodeAttr(a)| == i + 4 + Padded(|a.value|)
  {
    AttrParts(pre, Be16(a.kind), Be16(|a.value|), a.value, a.pad, more);
  }

  lemma AttrStep(pre: seq<byte>, a: Attr, more: seq<byte>)
    requires ValidAttr(a)
    ensures var bytes := pre + (EncodeAttr(a) + more);
            FindMapped(bytes, |pre|) ==
            if a.kind == XOR_MAPPED_ADDRESS then Some(a.value) else FindMapped(bytes, |pre + EncodeAttr(a)|)
  {
    AttrIsAt(pre, a, more);
    AttrAt(pre + (EncodeAttr(a) + more), |pre|, a.value);
  }

  /**
  On well-formed attributes the search gives the value of the first address attribute, or
  nothing if there is none.
  */
  lemma {:induction false} SearchFindsFirst(pre: seq<byte>, attrs: seq<Attr>)
    requires forall i | 0 <= i < |attrs| :: ValidAttr(attrs[i])
    ensures FindMapped(pre + EncodeAttrs(attrs), |pre|) ==
            match FirstMapped(attrs) case None => None case Some(a) => Some(a.value)
    decreases |attrs|
  {
    if attrs != [] {
      var first, more := EncodeAttr(attrs[0]), EncodeAttrs(attrs[1..]);
      AttrStep(pre, attrs[0], more);
      Assoc(pre, first, more);
      SearchFindsFirst(pre + first, attrs[1..]);
    }
  }

  lemma HeaderParts(kind: seq<byte>, len: seq<byte>, cookie: seq<byte>, tx: seq<byte>, body: seq<byte>, more: seq<byte>)
    requires |kind| == |len| == 2 && |cookie| == 4 && |tx| == 12
    ensures var s := kind + len + cookie + tx + body + more;
            && s[0] == kind[0] && s[1] == kind[1] && s[2] == len[0] && s[3] == len[1]
            && s[4] == cookie[0] && s[5] == cookie[1] && s[6] == cookie[2] && s[7] == cookie[3]
            && s[8..20] == tx && s[..20 + |body|] == kind + len + cookie + tx + body
  {
  }

  function Head(tx: seq<byte>, attrs: seq<Attr>): (h: seq<byte>)
    requires |tx| == 12 && ValidAttrs(attrs)
    ensures |h| == HEADER_LEN
  {
    Be16(BINDING_SUCCESS) + Be16(|EncodeAttrs(attrs)|) + CookieBytes() + tx
  }

  lemma ResponseIsMessage(tx: seq<byte>, attrs: seq<Attr>, trailing: seq<byte>)
    requires |tx| == 12 && ValidAttrs(attrs)
    ensures MessageOf(Response(tx, attrs) + trailing) == Some(Head(tx, attrs) + EncodeAttrs(attrs))
    ensures KeyOf(Head(tx, attrs) + EncodeAttrs(attrs)) == CookieBytes() + tx
  {
    var body := EncodeAttrs(attrs);
    HeaderParts(Be16(BINDING_SUCCESS), Be16(|body|), CookieBytes(), tx, body, trailing);
    HeaderParts(Be16(BINDING_SUCCESS), Be16(|body|), CookieBytes(), tx, body, []);
    Empty(Response(tx, attrs));
  }

  /** What the client reads from any well-formed response, whatever follows it in the datagram. */
  lemma ResponseRead(tx: seq<byte>, attrs: seq<Attr>, trailing: seq<byte>)
    requires |tx| == 12 && ValidAttrs(attrs)
    ensures Parse(Response(tx, attrs) + trailing) ==
            match FirstMapped(attrs) case None => None case Some(a) => ParseXorMapped(a.value, CookieBytes() + tx)
  {
    ResponseIsMessage(tx, attrs, trailing);
    SearchFindsFirst(Head(tx, attrs), attrs);
  }

  lemma {:induction false} FirstAmong(others: seq<Attr>, a: Attr, rest: seq<Attr>)
    requires a.kind == XOR_MAPPED_ADDRESS && forall i | 0 <= i < |others| :: others[i].kind != XOR_MAPPED_ADDRESS
    ensures FirstMapped(others + [a] + rest) == Some(a)
  {
    if others != [] {
      assert (others + [a] + rest)[1..] == others[1..] + [a] + rest;
      FirstAmong(others[1..], a, rest);
    }
  }

  /**
  The client gets exactly the address and port the server encoded, for both families and among
  any other attributes.
  */
  lemma AddressArrives(tx: seq<byte>, addr: SocketAddr, others: seq<Attr>, pad: seq<byte>, rest: seq<Attr>,
                       trailing: seq<byte>)
    requires |tx| == 12 && ValidAddr(addr)
    requires forall i | 0 <= i < |others| :: others[i].kind != XOR_MAPPED_ADDRESS
    requires ValidAttrs(others + [Attr(XOR_MAPPED_ADDRESS, EncodeAddr(addr, tx), pad)] + rest)
    ensures Parse(Response(tx, others + [Attr(XOR_MAPPED_ADDRESS, EncodeAddr(addr, tx), pad)] + rest) + trailing)
            == Some(addr)
  {
    var a := Attr(XOR_MAPPED_ADDRESS, EncodeAddr(addr, tx), pad);
    FirstAmong(others, a, rest);
    ResponseRead(tx, others + [a] + rest, trailing);
    AddrRoundTrip(addr, tx);
  }

  /** A request is recognised as STUN, carries its transaction, and is never taken for a response. */
  lemma RequestIsNoResponse(tx: seq<byte>)
    requires |tx| == 12
    ensures var req := EncodeRequest(tx); LooksLikeStun(req) && TxId(req) == Some(tx) && Parse(req) == None
  {
    HeaderParts(Be16(BINDING_REQUEST), Be16(0), CookieBytes(), tx, [], []);
    Empty(EncodeRequest(tx));
  }
}
