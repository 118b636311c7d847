/** The puncher's message object and the parsing loops, as the scripts run them. */
module StunObjects {
  import opened Wrappers
  import opened StunCodec
  import opened BitwiseXor
  import opened StunMessages

  class StunMsg {
    var mtype: int
    var txn: Bytes
    var attrs: seq<Attribute>

    function Value(): Message
      reads this
    {
      Message(mtype, txn, attrs)
    }

    constructor (mtype: int, txn: Bytes)
      ensures Value() == Message(mtype, txn, [])
    {
      this.mtype, this.txn, this.attrs := mtype, txn, [];
    }

    /** Assignment to a dictionary key: a kind already there keeps its place. */
    method Add(kind: int, value: Bytes)
      modifies this`attrs
      ensures attrs == Put(old(attrs), Attribute(kind, value))
    {
      var k := 0;
      while k < |attrs| && attrs[k].kind != kind
        invariant 0 <= k <= |attrs|
        invariant Put(attrs, Attribute(kind, value)) == attrs[..k] + Put(attrs[k..], Attribute(kind, value))
      {
        assert attrs[..k + 1] == attrs[..k] + [attrs[k]];
        k := k + 1;
      }
      var whole := attrs;
      assert whole[..|whole|] == whole;
      if k < |attrs| {
        attrs := attrs[..k] + [Attribute(kind, value)] + attrs[k + 1..];
      } else {
        attrs := attrs + [Attribute(kind, value)];
      }
    }

    method AddXorMapped(ip: nat, port: nat) returns (ok: bool)
      modifies this`attrs
      ensures ok <==> SetXorMapped(old(attrs), ip, port).Some?
      ensures attrs == if ok then SetXorMapped(old(attrs), ip, port).value else old(attrs)
    {
      var xport, xip := Xor(port, MAGIC_COOKIE / 0x1_0000), Xor(ip, MAGIC_COOKIE);
      if xport >= 0x1_0000 || xip >= 0x1_0000_0000 { return false; }
      Add(XOR_MAPPED_ADDRESS, PutU16(1) + PutU16(xport) + PutU32(xip));
      return true;
    }

    method AddChangeRequest(changeIp: bool, changePort: bool)
      modifies this`attrs
      ensures attrs == SetChangeRequest(old(attrs), changeIp, changePort)
    {
      Add(CHANGE_REQUEST, PutU32((if changeIp then 1 else 0) + if changePort then 2 else 0));
    }

    /** `None` stands for a field that does not pack. */
    method ToBytes() returns (bytes: Option<Bytes>)
      ensures bytes == Encode(Value())
    {
      if !(0 <= mtype < 0x1_0000) { return None; }
      hide EncodeFrom, Padded, Field, Packs;
      var b: Bytes := Header(mtype, txn);
      var k := 0;
      assert attrs[0..] == attrs;
      while k < |attrs|
        invariant 0 <= k <= |attrs|
        invariant EncodeFrom(Header(mtype, txn), attrs) == EncodeFrom(b, attrs[k..])
      {
        EncodesNext(b, attrs, k);
        if !Packs(attrs[k]) { return None; }
        b := Pad(b + Field(attrs[k]));
        k := k + 1;
      }
      EncodesNothing(b);
      assert attrs[k..] == [];
      if !(20 <= |b| < 20 + 0x1_0000) { return None; }
      return Some(WithLength(b));
    }
  }

  /** Zeroes up to the next multiple of four. */
  method Pad(bytes: Bytes) returns (b: Bytes)
    ensures b == Padded(bytes)
  {
    b := bytes;
    while |b| % 4 != 0
      invariant bytes <= b <= Padded(bytes)
      decreases |Padded(bytes)| - |b|
    {
      b := b + [0];
    }
  }

  lemma EncodesNext(b: Bytes, attrs: seq<Attribute>, k: nat)
    requires k < |attrs|
    ensures EncodeFrom(b, attrs[k..]) == if Packs(attrs[k]) then EncodeFrom(Padded(b + Field(attrs[k])), attrs[k + 1..]) else None
  {
    assert attrs[k..][1..] == attrs[k + 1..];
  }

  lemma EncodesNothing(b: Bytes)
    ensures EncodeFrom(b, []) == Some(b)
  {
  }

  /** The cursor loop that reads attributes into a dictionary. */
  method FromBytes(data: Bytes) returns (m: Option<StunMsg>)
    ensures m.Some? <==> Decode(data).Some?
    ensures m.Some? ==> fresh(m.value) && Some(m.value.Value()) == Decode(data)
  {
    if |data| < 20 || U32At(data, 4) != MAGIC_COOKIE { return None; }
    var msg := new StunMsg(U16At(data, 0), data[8..20]);
    ReadFields(msg, data, 20 + U16At(data, 2));
    return Some(msg);
  }

  method ReadFields(msg: StunMsg, data: Bytes, end: nat)
    modifies msg`attrs
    ensures msg.attrs == PutAll(old(msg.attrs), Fields(data, 20, end))
  {
    hide Fields, Put, PutAll, Aligned, U16At;
    var n := 20;
    while n + 4 <= end && n + 4 <= |data|
      invariant 0 <= n
      invariant PutAll(old(msg.attrs), Fields(data, 20, end)) == PutAll(msg.attrs, Fields(data, n, end))
      decreases |data| + 4 - n
    {
      FieldsUnroll(data, n, end);
      var kind, length := U16At(data, n), U16At(data, n + 2);
      if n + 4 + length > |data| { break; }
      msg.Add(kind, data[n + 4..n + 4 + length]);
      n := n + 4 + Aligned(length);
    }
    FieldsStop(data, n, end);
    PutNothing(msg.attrs);
  }

  lemma PutNothing(attrs: seq<Attribute>)
    ensures PutAll(attrs, []) == attrs
  {
  }

  lemma FieldsUnroll(data: Bytes, n: nat, end: nat)
    requires n + 4 <= end && n + 4 <= |data|
    ensures var length := U16At(data, n + 2);
      if n + 4 + length > |data| then Fields(data, n, end) == []
      else
        var a := Attribute(U16At(data, n), data[n + 4..n + 4 + length]);
        var rest := Fields(data, n + 4 + Aligned(length), end);
        && Fields(data, n, end) == [a] + rest
        && forall attrs :: PutAll(attrs, Fields(data, n, end)) == PutAll(Put(attrs, a), rest)
  {
    var length := U16At(data, n + 2);
    if n + 4 + length <= |data| {
      var rest := Fields(data, n + 4 + Aligned(length), end);
      assert Fields(data, n, end)[1..] == rest;
    }
  }

  lemma FieldsStop(data: Bytes, n: nat, end: nat)
    ensures n + 4 > end || n + 4 > |data| || n + 4 + U16At(data, n + 2) > |data| ==> Fields(data, n, end) == []
  {
  }

  /** The cursor loop of the lenient request parser: a later change request overrides an earlier one. */
  method ReadRequest(data: Bytes) returns (txn: Option<Bytes>, change: nat)
    ensures (txn, change) == ParseStun(data)
  {
    if !IsRequest(data) { return None, 0; }
    change := ReadMask(data, 20 + U16At(data, 2));
    return Some(data[8..20]), change;
  }

  method ReadMask(data: Bytes, end: nat) returns (change: nat)
    ensures change == LastMask(Fields(data, 20, end), 0)
  {
    hide Fields, LastMask, Aligned, U16At, U32At;
    var n := 20;
    change := 0;
    while n + 4 <= end && n + 4 <= |data|
      invariant 0 <= n
      invariant LastMask(Fields(data, 20, end), 0) == LastMask(Fields(data, n, end), change)
      decreases |data| + 4 - n
    {
      FieldsUnroll(data, n, end);
      var kind, length := U16At(data, n), U16At(data, n + 2);
      if n + 4 + length > |data| { break; }
      MaskUnrolls(data, n, kind, length, Fields(data, n + 4 + Aligned(length), end), change);
      if kind == CHANGE_REQUEST && length >= 4 {
        change := U32At(data, n + 4);
      }
      n := n + 4 + Aligned(length);
    }
    FieldsStop(data, n, end);
    NoMask(change);
  }

  lemma NoMask(change: nat)
    ensures LastMask([], change) == change
  {
  }

  lemma MaskUnrolls(data: Bytes, n: nat, kind: nat, length: nat, rest: seq<Attribute>, change: nat)
    requires n + 4 + length <= |data|
    ensures LastMask([Attribute(kind, data[n + 4..n + 4 + length])] + rest, change)
            == LastMask(rest, if kind == CHANGE_REQUEST && length >= 4 then U32At(data, n + 4) else change)
  {
    var a := Attribute(kind, data[n + 4..n + 4 + length]);
    assert ([a] + rest)[1..] == rest;
    if length >= 4 {
      Word32(a.value, 0, data[n + 4..n + 8]);
      Word32(data, n + 4, data[n + 4..n + 8]);
    }
  }

  /** The mock server's parsing loop, which moves its cursor past the head of an attribute first. */
  method ReadBinding(data: Bytes) returns (r: Option<(Bytes, nat)>)
    ensures r == if ParseStun(data).0.None? then None else Some((ParseStun(data).0.value, ParseStun(data).1))
  {
    if |data| < 20 { return None; }
    var mtype, mlen, cookie := U16At(data, 0), U16At(data, 2), U32At(data, 4);
    if mtype != BINDING_REQUEST || cookie != MAGIC_COOKIE { return None; }
    hide Fields, LastMask, Aligned, U16At, U32At;
    var change := ReadChange(data, 20 + mlen);
    return Some((data[8..20], change));
  }

  method ReadChange(data: Bytes, end: nat) returns (change: nat)
    ensures change == LastMask(Fields(data, 20, end), 0)
  {
    hide Fields, LastMask, Aligned, U16At, U32At;
    var n := 20;
    change := 0;
    while n + 4 <= end && n + 4 <= |data|
      invariant 0 <= n
      invariant LastMask(Fields(data, 20, end), 0) == LastMask(Fields(data, n, end), change)
      decreases |data| + 4 - n
    {
      FieldsUnroll(data, n, end);
      ghost var head := n;
      var kind, length := U16At(data, n), U16At(data, n + 2);
      n := n + 4;
      if n + length > |data| {
        FieldsStop(data, head, end);
        NoMask(change);
        return;
      }
      MaskUnrolls(data, head, kind, length, Fields(data, head + 4 + Aligned(length), end), change);
      if kind == CHANGE_REQUEST && length >= 4 {
        change := U32At(data, n);
      }
      n := n + Aligned(length);
    }
    FieldsStop(data, n, end);
    NoMask(change);
  }

  // ----- the messages the puncher builds -----

  const PUNCH_MESSAGE: nat := 0x0009
  const NR_PORT: nat := 0xC057
  const MAGIC_ATTRIBUTE: nat := 0xC058

  /** "NRC_PUNCH_V1" */
  const PUNCH_MAGIC: Bytes := [0x4E, 0x52, 0x43, 0x5F, 0x50, 0x55, 0x4E, 0x43, 0x48, 0x5F, 0x56, 0x31]

  lemma {:induction false} ShortBody(attrs: seq<Attribute>)
    requires forall i | 0 <= i < |attrs| :: |attrs[i].value| <= 12
    ensures BodySize(attrs) <= 16 * |attrs|
    decreases |attrs|
  {
    if attrs != [] {
      ShortBody(attrs[1..]);
    }
  }

  lemma FewAttributesEncode(m: Message)
    requires |m.txn| == 12 && 0 <= m.mtype < 0x1_0000 && |m.attrs| <= 3
    requires forall i | 0 <= i < |m.attrs| :: 0 <= m.attrs[i].kind < 0x1_0000 && |m.attrs[i].value| <= 12
    ensures Encode(m).Some?
  {
    EncodableIff(m);
    ShortBody(m.attrs);
    hide Encode;
  }

  /** A detection probe: both simulators read back its transaction, and the lenient one the change it asks for. */
  method ProbeRequest(txn: Bytes, changeIp: bool, changePort: bool) returns (bytes: Bytes)
    requires |txn| == 12
    ensures ParseBindingRequest(bytes) == Some(txn)
    ensures ParseStun(bytes) == (Some(txn), (if changeIp then 1 else 0) + if changePort then 2 else 0)
  {
    var msg := new StunMsg(BINDING_REQUEST, txn);
    if changeIp || changePort {
      msg.AddChangeRequest(changeIp, changePort);
      ChangeRequestRoundTrip([], changeIp, changePort);
    }
    ghost var m := msg.Value();
    FewAttributesEncode(m);
    EncodedRequestIsUnderstood(m);
    hide Encode, GetChangeRequest;
    var encoded := msg.ToBytes();
    bytes := encoded.value;
  }

  /** The three attributes of a punch packet. */
  lemma PunchAttributes(ip: nat, port: nat, nr: Bytes) returns (attrs: seq<Attribute>)
    requires ip < 0x1_0000_0000 && port < 0x1_0000 && |nr| == 8
    ensures SetXorMapped([], ip, port).Some?
    ensures attrs == Put(Put(SetXorMapped([], ip, port).value, Attribute(NR_PORT, nr)), Attribute(MAGIC_ATTRIBUTE, PUNCH_MAGIC))
    ensures GetXorMapped(attrs) == Some((ip, port)) && Get(attrs, NR_PORT) == Some(nr) && Get(attrs, MAGIC_ATTRIBUTE) == Some(PUNCH_MAGIC)
    ensures Distinct(attrs) && |attrs| == 3
    ensures forall i | 0 <= i < |attrs| :: 0 <= attrs[i].kind < 0x1_0000 && |attrs[i].value| <= 12
  {
    hide Xor, U16At, U32At;
    XorMappedRoundTrip([], ip, port);
    var mapped := SetXorMapped([], ip, port).value;
    var one, two := Attribute(NR_PORT, nr), Attribute(MAGIC_ATTRIBUTE, PUNCH_MAGIC);
    attrs := Put(Put(mapped, one), two);
    assert mapped == [mapped[0]] && mapped[1..] == [];
    assert Put(mapped, one) == [mapped[0], one];
    assert [mapped[0], one][1..] == [one] && [one][1..] == [];
    assert Put([one], two) == [one, two];
    assert attrs == [mapped[0], one, two];
    PutGet(mapped, one, XOR_MAPPED_ADDRESS);
    PutGet(Put(mapped, one), two, XOR_MAPPED_ADDRESS);
    PutGet(mapped, one, NR_PORT);
    PutGet(Put(mapped, one), two, NR_PORT);
    PutGet(Put(mapped, one), two, MAGIC_ATTRIBUTE);
    hide Get, Put;
  }

  /**
   A punch packet: whoever decodes it reads back the sender's public endpoint, its step and port as 16-bit words, and the
   mark by which the two sides know each other.
   */
  method PunchMessage(txn: Bytes, ip: nat, port: nat, step: int, current: int) returns (bytes: Bytes)
    requires |txn| == 12 && ip < 0x1_0000_0000 && port < 0x1_0000
    ensures var m := Decode(bytes);
      && m.Some? && m.value.mtype == PUNCH_MESSAGE && m.value.txn == txn && GetXorMapped(m.value.attrs) == Some((ip, port))
      && Get(m.value.attrs, NR_PORT) == Some(PutU16(step % 0x1_0000) + PutU16(current % 0x1_0000) + [0, 0, 0, 0])
      && Get(m.value.attrs, MAGIC_ATTRIBUTE) == Some(PUNCH_MAGIC)
  {
    hide Encode, Xor, Decode, Put, Get, GetXorMapped, SetXorMapped, PutU16, Distinct;
    var nr := PutU16(step % 0x1_0000) + PutU16(current % 0x1_0000) + [0, 0, 0, 0];
    ghost var attrs := PunchAttributes(ip, port, nr);
    var msg := new StunMsg(PUNCH_MESSAGE, txn);
    var ok := msg.AddXorMapped(ip, port);
    msg.Add(NR_PORT, nr);
    msg.Add(MAGIC_ATTRIBUTE, PUNCH_MAGIC);
    ghost var m := msg.Value();
    FewAttributesEncode(m);
    RoundTrip(m);
    var encoded := msg.ToBytes();
    bytes := encoded.value;
  }
}
