/**
 STUN messages: the encoder and decoder of the puncher, the two request parsers and the three response builders, all
 over the format of sections 6, 15 and 15.2 of RFC 5389.
 */
module StunMessages {
  import opened Wrappers
  import opened StunCodec
  import opened BitwiseXor

  datatype Attribute = Attribute(kind: int, value: Bytes)

  /** `attrs` is a dictionary in insertion order: every kind appears once. */
  datatype Message = Message(mtype: int, txn: Bytes, attrs: seq<Attribute>)

  ghost predicate Distinct(attrs: seq<Attribute>) {
    forall i, j | 0 <= i < j < |attrs| :: attrs[i].kind != attrs[j].kind
  }

  // ----- words -----

  function PutU16(x: nat): (r: Bytes)
    requires x < 0x1_0000
    ensures |r| == 2 && U16At(r, 0) == x
  {
    [x / 0x100, x % 0x100]
  }

  function PutU32(x: nat): (r: Bytes)
    requires x < 0x1_0000_0000
    ensures |r| == 4 && U32At(r, 0) == x
  {
    PutU16(x / 0x1_0000) + PutU16(x % 0x1_0000)
  }

  function Aligned(n: nat): (r: nat)
    ensures n <= r < n + 4 && r % 4 == 0
  {
    (n + 3) / 4 * 4
  }

  function Padded(b: Bytes): (r: Bytes)
    ensures b <= r && |r| == Aligned(|b|)
  {
    b + seq(Aligned(|b|) - |b|, _ => 0)
  }

  // ----- the attribute dictionary -----

  /** A value already there is replaced in its place. */
  function Put(attrs: seq<Attribute>, a: Attribute): seq<Attribute>
    decreases |attrs|
  {
    if attrs == [] then [a]
    else if attrs[0].kind == a.kind then [a] + attrs[1..]
    else [attrs[0]] + Put(attrs[1..], a)
  }

  function PutAll(attrs: seq<Attribute>, more: seq<Attribute>): seq<Attribute>
    decreases |more|
  {
    if more == [] then attrs else PutAll(Put(attrs, more[0]), more[1..])
  }

  function Get(attrs: seq<Attribute>, kind: int): Option<Bytes>
    decreases |attrs|
  {
    if attrs == [] then None else if attrs[0].kind == kind then Some(attrs[0].value) else Get(attrs[1..], kind)
  }

  lemma {:induction false} PutFreshAppends(attrs: seq<Attribute>, a: Attribute)
    requires forall i | 0 <= i < |attrs| :: attrs[i].kind != a.kind
    ensures Put(attrs, a) == attrs + [a]
    decreases |attrs|
  {
    if attrs != [] {
      PutFreshAppends(attrs[1..], a);
      assert attrs + [a] == [attrs[0]] + (attrs[1..] + [a]);
    }
  }

  lemma {:induction false} PutAllAppends(attrs: seq<Attribute>, more: seq<Attribute>)
    requires Distinct(attrs + more)
    ensures PutAll(attrs, more) == attrs + more
    decreases |more|
  {
    if more == [] {
      assert attrs + more == attrs;
    } else {
      assert forall i | 0 <= i < |attrs| :: attrs[i] == (attrs + more)[i];
      assert (attrs + more)[|attrs|] == more[0];
      PutFreshAppends(attrs, more[0]);
      assert (attrs + [more[0]]) + more[1..] == attrs + more;
      PutAllAppends(attrs + [more[0]], more[1..]);
    }
  }

  /** What is put under a kind is what is found there, and the other kinds are undisturbed. */
  lemma {:induction false} PutGet(attrs: seq<Attribute>, a: Attribute, kind: int)
    ensures Get(Put(attrs, a), kind) == if kind == a.kind then Some(a.value) else Get(attrs, kind)
    decreases |attrs|
  {
    if attrs != [] && attrs[0].kind != a.kind {
      PutGet(attrs[1..], a, kind);
    }
  }

  // ----- encoding -----

  predicate Packs(a: Attribute) {
    0 <= a.kind < 0x1_0000 && |a.value| < 0x1_0000
  }

  function Field(a: Attribute): (r: Bytes)
    requires Packs(a)
    ensures |r| == 4 + |a.value|
  {
    PutU16(a.kind) + PutU16(|a.value|) + a.value
  }

  function EncodeFrom(b: Bytes, attrs: seq<Attribute>): Option<Bytes>
    decreases |attrs|
  {
    if attrs == [] then Some(b)
    else if !Packs(attrs[0]) then None
    else EncodeFrom(Padded(b + Field(attrs[0])), attrs[1..])
  }

  function Header(mtype: nat, txn: Bytes): (r: Bytes)
    requires mtype < 0x1_0000
    ensures |r| == 8 + |txn|
  {
    PutU16(mtype) + [0, 0] + PutU32(MAGIC_COOKIE) + txn
  }

  /** The length field counts what follows the 20-byte header. */
  function WithLength(b: Bytes): Bytes
    requires 20 <= |b| < 20 + 0x1_0000
  {
    b[..2] + PutU16(|b| - 20) + b[4..]
  }

  /** `None` where packing a field raises. */
  function Encode(m: Message): Option<Bytes> {
    if !(0 <= m.mtype < 0x1_0000) then None
    else
      var b := EncodeFrom(Header(m.mtype, m.txn), m.attrs);
      if b.None? || !(20 <= |b.value| < 20 + 0x1_0000) then None else Some(WithLength(b.value))
  }

  // ----- decoding -----

  /** The attributes as they come, up to the length `end` the header gives or the first one the datagram cuts off. */
  function Fields(data: Bytes, n: nat, end: nat): seq<Attribute>
    decreases |data| + 4 - n
  {
    if n + 4 > end || n + 4 > |data| then []
    else
      var length := U16At(data, n + 2);
      if n + 4 + length > |data| then []
      else [Attribute(U16At(data, n), data[n + 4..n + 4 + length])] + Fields(data, n + 4 + Aligned(length), end)
  }

  function Decode(data: Bytes): Option<Message> {
    if |data| < 20 || U32At(data, 4) != MAGIC_COOKIE then None
    else Some(Message(U16At(data, 0), data[8..20], PutAll([], Fields(data, 20, 20 + U16At(data, 2)))))
  }

  /** The mask of the last CHANGE-REQUEST that is long enough to hold one. */
  function LastMask(fields: seq<Attribute>, mask: nat): nat
    decreases |fields|
  {
    if fields == [] then mask
    else
      var a := fields[0];
      LastMask(fields[1..], if a.kind == CHANGE_REQUEST && |a.value| >= 4 then U32At(a.value, 0) else mask)
  }

  /** The lenient parser: the transaction, or nothing, and the change mask. */
  function ParseStun(data: Bytes): (Option<Bytes>, nat) {
    if !IsRequest(data) then (None, 0)
    else (Some(data[8..20]), LastMask(Fields(data, 20, 20 + U16At(data, 2)), 0))
  }

  // ----- the two attributes that matter -----

  function SetXorMapped(attrs: seq<Attribute>, ip: nat, port: nat): Option<seq<Attribute>> {
    var xport, xip := Xor(port, MAGIC_COOKIE / 0x1_0000), Xor(ip, MAGIC_COOKIE);
    if xport >= 0x1_0000 || xip >= 0x1_0000_0000 then None
    else Some(Put(attrs, Attribute(XOR_MAPPED_ADDRESS, PutU16(1) + PutU16(xport) + PutU32(xip))))
  }

  function GetXorMapped(attrs: seq<Attribute>): Option<(nat, nat)> {
    var v := Get(attrs, XOR_MAPPED_ADDRESS);
    if v.None? || |v.value| < 8 then None
    else Some((Xor(U32At(v.value, 4), MAGIC_COOKIE), Xor(U16At(v.value, 2), MAGIC_COOKIE / 0x1_0000)))
  }

  function SetChangeRequest(attrs: seq<Attribute>, changeIp: bool, changePort: bool): seq<Attribute> {
    Put(attrs, Attribute(CHANGE_REQUEST, PutU32((if changeIp then 1 else 0) + if changePort then 2 else 0)))
  }

  function GetChangeRequest(attrs: seq<Attribute>): nat {
    var v := Get(attrs, CHANGE_REQUEST);
    if v.Some? && |v.value| >= 4 then U32At(v.value, 0) else 0
  }

  lemma XorOfWords(port: nat, ip: nat)
    requires port < 0x1_0000 && ip < 0x1_0000_0000
    ensures Xor(port, MAGIC_COOKIE / 0x1_0000) < 0x1_0000 && Xor(ip, MAGIC_COOKIE) < 0x1_0000_0000
  {
    WordShifts();
    hide Xor, Shift;
    XorSplits(0, 0, port, MAGIC_COOKIE / 0x1_0000, 16);
    XorSplits(0, 0, ip, MAGIC_COOKIE, 32);
  }

  /** A mapped address that is set is the one that is read, and none out of range can be set in its place. */
  lemma XorMappedRoundTrip(attrs: seq<Attribute>, ip: nat, port: nat)
    requires port < 0x1_0000 && ip < 0x1_0000_0000
    ensures var updated := SetXorMapped(attrs, ip, port); updated.Some? && GetXorMapped(updated.value) == Some((ip, port))
  {
    XorOfWords(port, ip);
    var xport, xip := Xor(port, MAGIC_COOKIE / 0x1_0000), Xor(ip, MAGIC_COOKIE);
    XorUndoes(port, MAGIC_COOKIE / 0x1_0000);
    XorUndoes(ip, MAGIC_COOKIE);
    hide Xor;
    var v := PutU16(1) + PutU16(xport) + PutU32(xip);
    PutGet(attrs, Attribute(XOR_MAPPED_ADDRESS, v), XOR_MAPPED_ADDRESS);
    Word32(v, 4, PutU32(xip));
    Word16(v, 2, PutU16(xport));
  }

  lemma Word16(data: Bytes, i: nat, w: Bytes)
    requires |w| == 2 && i + 2 <= |data| && data[i..i + 2] == w
    ensures U16At(data, i) == U16At(w, 0)
  {
    assert data[i..i + 2][0] == data[i] && data[i..i + 2][1] == data[i + 1];
  }

  lemma Word32(data: Bytes, i: nat, w: Bytes)
    requires |w| == 4 && i + 4 <= |data| && data[i..i + 4] == w
    ensures U32At(data, i) == U32At(w, 0)
  {
    var d := data[i..i + 4];
    assert d[0] == data[i] && d[1] == data[i + 1] && d[2] == data[i + 2] && d[3] == data[i + 3];
  }

  lemma ChangeRequestRoundTrip(attrs: seq<Attribute>, changeIp: bool, changePort: bool)
    ensures GetChangeRequest(SetChangeRequest(attrs, changeIp, changePort))
            == (if changeIp then 1 else 0) + if changePort then 2 else 0
  {
    var v := PutU32((if changeIp then 1 else 0) + if changePort then 2 else 0);
    PutGet(attrs, Attribute(CHANGE_REQUEST, v), CHANGE_REQUEST);
  }

  // ----- decoding undoes encoding -----

  /** Encoding only appends, keeps the alignment, and every attribute can be read back from where it was written. */
  lemma {:induction false} FieldsOfEncoding(b: Bytes, attrs: seq<Attribute>, data: Bytes)
    requires |b| % 4 == 0 && EncodeFrom(b, attrs).Some?
    requires var r := EncodeFrom(b, attrs).value; |b| <= |r| ==> |data| == |r| && data[|b|..] == r[|b|..]
    ensures b <= EncodeFrom(b, attrs).value && |EncodeFrom(b, attrs).value| % 4 == 0
    ensures Fields(data, |b|, |data|) == attrs
    decreases |attrs|
  {
    if attrs != [] {
      var a, r := attrs[0], EncodeFrom(b, attrs).value;
      var b' := Padded(b + Field(a));
      assert (b + Field(a))[|b|..] == Field(a) && b'[..|b| + |Field(a)|] == b + Field(a);
      hide Field, Padded, Packs;
      EncodeExtends(b', attrs[1..]);
      TailsAgree(data, r, |b|, b', Field(a));
      FieldsOfEncoding(b', attrs[1..], data);
      FieldIsRead(b, a, data);
    }
  }

  lemma TailsAgree(data: Bytes, r: Bytes, n: nat, b: Bytes, f: Bytes)
    requires n + |f| <= |b| <= |r| == |data| && b <= r && data[n..] == r[n..]
    requires b[..n + |f|][n..] == f
    ensures data[|b|..] == r[|b|..] && data[n..n + |f|] == f
  {
    assert data[|b|..] == data[n..][|b| - n..];
    assert r[|b|..] == r[n..][|b| - n..];
    assert data[n..n + |f|] == data[n..][..|f|] == r[n..n + |f|];
    assert r[n..n + |f|] == b[..n + |f|][n..];
  }

  lemma {:induction false} EncodeExtends(b: Bytes, attrs: seq<Attribute>)
    requires EncodeFrom(b, attrs).Some?
    ensures b <= EncodeFrom(b, attrs).value
    decreases |attrs|
  {
    if attrs != [] {
      EncodeExtends(Padded(b + Field(attrs[0])), attrs[1..]);
    }
  }

  lemma FieldIsRead(b: Bytes, a: Attribute, data: Bytes)
    requires Packs(a) && |b| % 4 == 0
    requires |b| + |Field(a)| <= |data| && data[|b|..|b| + |Field(a)|] == Field(a)
    ensures U16At(data, |b|) == a.kind && U16At(data, |b| + 2) == |a.value|
    ensures data[|b| + 4..|b| + 4 + |a.value|] == a.value
    ensures |Padded(b + Field(a))| == |b| + 4 + Aligned(|a.value|)
  {
    var n, f := |b|, Field(a);
    assert forall k | 0 <= k < |f| :: data[n + k] == data[n..n + |f|][k] == f[k];
    assert f[..2] == PutU16(a.kind) && f[2..4] == PutU16(|a.value|) && f[4..] == a.value;
    Word16(data, n, PutU16(a.kind));
    Word16(data, n + 2, PutU16(|a.value|));
  }

  lemma HeaderIsRead(mtype: nat, txn: Bytes, data: Bytes)
    requires mtype < 0x1_0000 && |txn| == 12 && 20 <= |data| < 20 + 0x1_0000 && data[..20] == Header(mtype, txn)
    ensures var r := WithLength(data);
      |r| == |data| && r[20..] == data[20..]
      && U16At(r, 0) == mtype && U16At(r, 2) == |data| - 20 && U32At(r, 4) == MAGIC_COOKIE && r[8..20] == txn
  {
    var r := WithLength(data);
    var h := Header(mtype, txn);
    assert forall k | 4 <= k < |data| :: r[k] == data[k];
    assert forall k | 0 <= k < 20 :: data[k] == h[k];
    assert r[0..2] == PutU16(mtype);
    assert r[2..4] == PutU16(|data| - 20);
    assert r[4..8] == PutU32(MAGIC_COOKIE);
    Word16(r, 0, PutU16(mtype));
    Word16(r, 2, PutU16(|data| - 20));
    Word32(r, 4, PutU32(MAGIC_COOKIE));
  }

  /** What the bytes of an encoded message with a 12-byte transaction say, part by part. */
  lemma EncodingIsRead(m: Message)
    requires Encode(m).Some? && |m.txn| == 12
    ensures var r := Encode(m).value;
      && |r| >= 20 && |r| % 4 == 0 && |r| == 20 + U16At(r, 2)
      && U16At(r, 0) == m.mtype && U32At(r, 4) == MAGIC_COOKIE && r[8..20] == m.txn
      && Fields(r, 20, 20 + U16At(r, 2)) == m.attrs
  {
    var h := Header(m.mtype, m.txn);
    EncodeExtends(h, m.attrs);
    var b := EncodeFrom(h, m.attrs).value;
    HeaderIsRead(m.mtype, m.txn, b);
    FieldsOfEncoding(h, m.attrs, WithLength(b));
  }

  /** Decoding an encoded message gives it back exactly when its transaction has the 12 bytes the format has room for. */
  lemma RoundTrip(m: Message)
    requires Encode(m).Some? && Distinct(m.attrs)
    ensures Decode(Encode(m).value) == Some(m) <==> |m.txn| == 12
  {
    if |m.txn| == 12 {
      EncodingIsRead(m);
      assert [] + m.attrs == m.attrs;
      PutAllAppends([], m.attrs);
    }
  }

  // ----- which messages can be encoded -----

  function BodySize(attrs: seq<Attribute>): nat
    decreases |attrs|
  {
    if attrs == [] then 0 else 4 + Aligned(|attrs[0].value|) + BodySize(attrs[1..])
  }

  lemma AlignedField(start: nat, length: nat)
    requires start % 4 == 0
    ensures Aligned(start + 4 + length) == start + 4 + Aligned(length)
  {
  }

  lemma {:induction false} EncodedSize(b: Bytes, attrs: seq<Attribute>)
    requires |b| % 4 == 0
    ensures EncodeFrom(b, attrs).Some? <==> forall i | 0 <= i < |attrs| :: Packs(attrs[i])
    ensures EncodeFrom(b, attrs).Some? ==> |EncodeFrom(b, attrs).value| == |b| + BodySize(attrs)
    decreases |attrs|
  {
    hide Packs, Field, Padded;
    if attrs != [] && Packs(attrs[0]) {
      var f := Field(attrs[0]);
      EncodedSize(Padded(b + f), attrs[1..]);
      AlignedField(|b|, |attrs[0].value|);
      assert forall i | 1 <= i < |attrs| :: attrs[i] == attrs[1..][i - 1];
    }
  }

  /** Encoding fails exactly when the type, an attribute or the whole body does not fit its 16-bit field. */
  lemma EncodableIff(m: Message)
    requires |m.txn| == 12
    ensures Encode(m).Some? <==>
      0 <= m.mtype < 0x1_0000 && (forall i | 0 <= i < |m.attrs| :: Packs(m.attrs[i])) && BodySize(m.attrs) < 0x1_0000
  {
    if 0 <= m.mtype < 0x1_0000 {
      EncodedSize(Header(m.mtype, m.txn), m.attrs);
    }
  }

  // ----- the two request parsers -----

  /** The strict parser accepts what the lenient one does, minus the datagrams whose length field is unaligned or wrong. */
  lemma StrictIsLenientAndExact(data: Bytes, txn: Bytes)
    ensures ParseBindingRequest(data) == Some(txn) <==>
      ParseStun(data).0 == Some(txn) && U16At(data, 2) % 4 == 0 && |data| == 20 + U16At(data, 2)
  {
  }

  lemma {:induction false} DistinctMask(attrs: seq<Attribute>, mask: nat)
    requires Distinct(attrs)
    ensures LastMask(attrs, mask) ==
      var v := Get(attrs, CHANGE_REQUEST); if v.Some? && |v.value| >= 4 then U32At(v.value, 0) else mask
    decreases |attrs|
  {
    if attrs != [] {
      var a := attrs[0];
      DistinctMask(attrs[1..], if a.kind == CHANGE_REQUEST && |a.value| >= 4 then U32At(a.value, 0) else mask);
      if a.kind == CHANGE_REQUEST {
        GetMissing(attrs[1..], CHANGE_REQUEST);
      }
    }
  }

  lemma {:induction false} GetMissing(attrs: seq<Attribute>, kind: int)
    requires forall i | 0 <= i < |attrs| :: attrs[i].kind != kind
    ensures Get(attrs, kind) == None
    decreases |attrs|
  {
    if attrs != [] {
      GetMissing(attrs[1..], kind);
    }
  }

  /** Both parsers read the transaction of every Binding Request the puncher can encode, and the lenient one its mask. */
  lemma EncodedRequestIsUnderstood(m: Message)
    requires Encode(m).Some? && Distinct(m.attrs) && m.mtype == BINDING_REQUEST && |m.txn| == 12
    ensures ParseBindingRequest(Encode(m).value) == Some(m.txn)
    ensures ParseStun(Encode(m).value) == (Some(m.txn), GetChangeRequest(m.attrs))
  {
    hide Encode, Fields, LastMask, Get, U16At, U32At;
    EncodingIsRead(m);
    DistinctMask(m.attrs, 0);
  }

  // ----- the response builders -----

  predicate AreOctets(octets: seq<int>) {
    forall i | 0 <= i < |octets| :: 0 <= octets[i] < 0x100
  }

  function CookieBytes(): (r: Bytes)
    ensures |r| == 4
  {
    PutU32(MAGIC_COOKIE)
  }

  /** `zip` stops at the shorter of the address and the cookie. */
  function XorWithCookie(octets: seq<int>): (r: Bytes)
    requires AreOctets(octets)
    ensures |r| == if |octets| < 4 then |octets| else 4
  {
    var k := if |octets| < 4 then |octets| else 4;
    seq(k, i requires 0 <= i < k => XorByte(octets[i], CookieBytes()[i]))
  }

  function XorByte(a: nat, b: nat): (r: Byte)
    requires a < 0x100 && b < 0x100
  {
    XorBytes(0, 0, a, b);
    Xor(a, b)
  }

  function ResponseBytes(txn: Bytes, octets: seq<int>, xport: nat): Bytes
    requires AreOctets(octets) && xport < 0x1_0000
  {
    PutU16(BINDING_RESPONSE) + PutU16(8 + |XorWithCookie(octets)|) + PutU32(MAGIC_COOKIE) + txn
    + (PutU16(XOR_MAPPED_ADDRESS) + PutU16(8) + [0, 1] + PutU16(xport) + XorWithCookie(octets))
  }

  /** The NAT simulator's builder raises on a transaction or an address of the wrong length. */
  function BindingResponse(txn: Bytes, octets: seq<int>, port: nat): Option<Bytes> {
    var xport := Xor(port, MAGIC_COOKIE / 0x1_0000);
    if |txn| != 12 || |octets| != 4 || !AreOctets(octets) || xport >= 0x1_0000 then None
    else Some(ResponseBytes(txn, octets, xport))
  }

  /** The research simulator's and the mock server's builders do not check lengths. */
  function UncheckedBindingResponse(txn: Bytes, octets: seq<int>, port: nat): Option<Bytes> {
    var xport := Xor(port, MAGIC_COOKIE / 0x1_0000);
    if !AreOctets(octets) || xport >= 0x1_0000 then None
    else Some(ResponseBytes(txn, octets, xport))
  }

  /** An IPv4 address as one word. */
  function AddressWord(octets: seq<int>): (r: nat)
    requires |octets| == 4 && AreOctets(octets)
    ensures r < 0x1_0000_0000
  {
    ((octets[0] * 0x100 + octets[1]) * 0x100 + octets[2]) * 0x100 + octets[3]
  }

  lemma XorOctets(octets: seq<int>)
    requires |octets| == 4 && AreOctets(octets)
    ensures XorWithCookie(octets) ==
      [XorByte(octets[0], 0x21), XorByte(octets[1], 0x12), XorByte(octets[2], 0xA4), XorByte(octets[3], 0x42)]
  {
    assert CookieBytes() == [0x21, 0x12, 0xA4, 0x42];
    hide CookieBytes, XorByte;
  }

  lemma XorOfWord(x0: nat, x1: nat, x2: nat, x3: nat)
    requires x0 < 0x100 && x1 < 0x100 && x2 < 0x100 && x3 < 0x100
    ensures Xor(((x0 * 0x100 + x1) * 0x100 + x2) * 0x100 + x3, MAGIC_COOKIE) ==
      ((XorByte(x0, 0x21) * 0x100 + XorByte(x1, 0x12)) * 0x100 + XorByte(x2, 0xA4)) * 0x100 + XorByte(x3, 0x42)
  {
    hide Xor;
    XorBytes(x0, 0x21, x1, 0x12);
    XorBytes(x0 * 0x100 + x1, 0x2112, x2, 0xA4);
    XorBytes((x0 * 0x100 + x1) * 0x100 + x2, 0x2112A4, x3, 0x42);
  }

  lemma BytesOfWord(x0: nat, x1: nat, x2: nat, x3: nat)
    requires x0 < 0x100 && x1 < 0x100 && x2 < 0x100 && x3 < 0x100
    ensures PutU32(((x0 * 0x100 + x1) * 0x100 + x2) * 0x100 + x3) == [x0, x1, x2, x3]
  {
    var high, low := x0 * 0x100 + x1, x2 * 0x100 + x3;
    var word := high * 0x1_0000 + low;
    assert word == ((x0 * 0x100 + x1) * 0x100 + x2) * 0x100 + x3;
    assert word / 0x1_0000 == high && word % 0x1_0000 == low;
    assert PutU16(high) == [x0, x1] && PutU16(low) == [x2, x3];
  }

  lemma AddressWordIs(octets: seq<int>)
    requires |octets| == 4 && AreOctets(octets)
    ensures AddressWord(octets) == ((octets[0] * 0x100 + octets[1]) * 0x100 + octets[2]) * 0x100 + octets[3]
  {
  }

  lemma XorWordByByte(octets: seq<int>)
    requires |octets| == 4 && AreOctets(octets)
    ensures Xor(AddressWord(octets), MAGIC_COOKIE) < 0x1_0000_0000
    ensures XorWithCookie(octets) == PutU32(Xor(AddressWord(octets), MAGIC_COOKIE))
  {
    hide Xor, XorWithCookie, XorByte, PutU32, AddressWord;
    XorOctets(octets);
    AddressWordIs(octets);
    XorOfWord(octets[0], octets[1], octets[2], octets[3]);
    BytesOfWord(XorByte(octets[0], 0x21), XorByte(octets[1], 0x12), XorByte(octets[2], 0xA4), XorByte(octets[3], 0x42));
  }

  /**
   All builders agree, with each other and with the puncher's own encoder, wherever the strict one does not raise, and
   decoding their bytes gives back the transaction, the address and the port.
   */
  lemma ResponsesAgree(txn: Bytes, octets: seq<int>, port: nat)
    requires |txn| == 12 && |octets| == 4 && AreOctets(octets) && port < 0x1_0000
    ensures var r := BindingResponse(txn, octets, port);
      && r.Some? && r == UncheckedBindingResponse(txn, octets, port)
      && SetXorMapped([], AddressWord(octets), port).Some?
      && r == Encode(Message(BINDING_RESPONSE, txn, SetXorMapped([], AddressWord(octets), port).value))
      && Decode(r.value) == Some(Message(BINDING_RESPONSE, txn, SetXorMapped([], AddressWord(octets), port).value))
      && GetXorMapped(Decode(r.value).value.attrs) == Some((AddressWord(octets), port))
  {
    var ip := AddressWord(octets);
    XorOfWords(port, ip);
    XorWordByByte(octets);
    XorMappedRoundTrip([], ip, port);
    hide Xor, XorWithCookie, GetXorMapped;
    ResponseIsEncoded(txn, octets, port);
    RoundTrip(Message(BINDING_RESPONSE, txn, SetXorMapped([], ip, port).value));
  }

  lemma ResponseIsEncoded(txn: Bytes, octets: seq<int>, port: nat)
    requires |txn| == 12 && |octets| == 4 && AreOctets(octets)
    requires var xport, xip := Xor(port, MAGIC_COOKIE / 0x1_0000), Xor(AddressWord(octets), MAGIC_COOKIE);
      xport < 0x1_0000 && xip < 0x1_0000_0000 && XorWithCookie(octets) == PutU32(xip)
    ensures Encode(Message(BINDING_RESPONSE, txn, SetXorMapped([], AddressWord(octets), port).value))
            == Some(ResponseBytes(txn, octets, Xor(port, MAGIC_COOKIE / 0x1_0000)))
  {
    hide Xor, XorWithCookie;
    var xport, xip := Xor(port, MAGIC_COOKIE / 0x1_0000), Xor(AddressWord(octets), MAGIC_COOKIE);
    var v := PutU16(1) + PutU16(xport) + PutU32(xip);
    var a := Attribute(XOR_MAPPED_ADDRESS, v);
    var h := Header(BINDING_RESPONSE, txn);
    assert SetXorMapped([], AddressWord(octets), port) == Some([a]);
    assert Padded(h + Field(a)) == h + Field(a);
    assert EncodeFrom(h, [a]) == EncodeFrom(Padded(h + Field(a)), []);
    assert PutU16(1) == [0, 1];
    assert Field(a) == PutU16(XOR_MAPPED_ADDRESS) + PutU16(8) + [0, 1] + PutU16(xport) + XorWithCookie(octets);
    assert WithLength(h + Field(a)) == ResponseBytes(txn, octets, xport);
  }

  // ----- on the wire -----

  /** A response byte by byte: type 0x0101, length 12, the cookie, the transaction, and one XOR-MAPPED-ADDRESS. */
  lemma ResponseBytesAre(txn: Bytes, octets: seq<int>, port: nat)
    requires |txn| == 12 && |octets| == 4 && AreOctets(octets) && port < 0x1_0000
    ensures var r, x := BindingResponse(txn, octets, port), Xor(port, 0x2112);
      && x < 0x1_0000 && (forall i | 0 <= i < 4 :: 0 <= octets[i] < 0x100)
      && r == Some([1, 1, 0, 12, 0x21, 0x12, 0xA4, 0x42] + txn
                   + [0, 0x20, 0, 8, 0, 1, x / 0x100, x % 0x100,
                      XorByte(octets[0], 0x21), XorByte(octets[1], 0x12), XorByte(octets[2], 0xA4), XorByte(octets[3], 0x42)])
  {
    XorOfWords(port, 0);
    hide Xor, XorByte;
    CookieBytesAre();
    var x := Xor(port, 0x2112);
    assert XorWithCookie(octets) == [XorByte(octets[0], 0x21), XorByte(octets[1], 0x12), XorByte(octets[2], 0xA4), XorByte(octets[3], 0x42)];
    hide XorWithCookie;
    assert PutU16(BINDING_RESPONSE) == [1, 1] && PutU16(12) == [0, 12] && PutU16(XOR_MAPPED_ADDRESS) == [0, 0x20] && PutU16(8) == [0, 8];
    assert PutU16(x) == [x / 0x100, x % 0x100];
    hide PutU16, PutU32;
    var mapped := XorWithCookie(octets);
    assert ResponseBytes(txn, octets, x) == [1, 1] + [0, 12] + [0x21, 0x12, 0xA4, 0x42] + txn
      + ([0, 0x20] + [0, 8] + [0, 1] + [x / 0x100, x % 0x100] + mapped);
    hide ResponseBytes;
    assert [1, 1] + [0, 12] + [0x21, 0x12, 0xA4, 0x42] == [1, 1, 0, 12, 0x21, 0x12, 0xA4, 0x42];
    assert [0, 0x20] + [0, 8] + [0, 1] + [x / 0x100, x % 0x100] + mapped
      == [0, 0x20, 0, 8, 0, 1, x / 0x100, x % 0x100, mapped[0], mapped[1], mapped[2], mapped[3]];
  }

  lemma CookieBytesAre()
    ensures PutU32(MAGIC_COOKIE) == [0x21, 0x12, 0xA4, 0x42] && CookieBytes() == [0x21, 0x12, 0xA4, 0x42]
  {
  }

  /** Whatever is encoded begins with its type, the length of what follows the header, the cookie and the transaction. */
  lemma EncodedHeader(m: Message)
    requires Encode(m).Some? && |m.txn| == 12
    ensures var b := Encode(m).value;
      && |b| >= 20 && m.mtype == b[0] as int * 0x100 + b[1] as int && |b| - 20 == b[2] as int * 0x100 + b[3] as int
      && b[4..8] == [0x21, 0x12, 0xA4, 0x42] && b[8..20] == m.txn
  {
    CookieBytesAre();
    var b := EncodeFrom(Header(m.mtype, m.txn), m.attrs).value;
    EncodingExtends(Header(m.mtype, m.txn), m.attrs);
    assert Header(m.mtype, m.txn)[4..8] == PutU32(MAGIC_COOKIE) && Header(m.mtype, m.txn)[8..20] == m.txn;
    assert b[4..8] == Header(m.mtype, m.txn)[4..8] && b[8..20] == Header(m.mtype, m.txn)[8..20];
    assert WithLength(b)[4..8] == b[4..8] && WithLength(b)[8..20] == b[8..20];
    hide EncodeFrom;
  }

  lemma {:induction false} EncodingExtends(b: Bytes, attrs: seq<Attribute>)
    requires EncodeFrom(b, attrs).Some?
    ensures b <= EncodeFrom(b, attrs).value
    decreases |attrs|
  {
    if attrs != [] {
      EncodingExtends(Padded(b + Field(attrs[0])), attrs[1..]);
      hide EncodeFrom;
      assert b <= b + Field(attrs[0]);
    }
  }
}
