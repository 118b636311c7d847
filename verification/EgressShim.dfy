/**
 The egress shim and the gateway it reports to: flattening a scattered message, framing it with its destination, and
 the counters that are compared after a round.
 */
module EgressShim {
  import opened Wrappers
  import opened StunCodec
  import opened StunMessages

  const HEADER_SIZE := 16
  const MAX_PAYLOAD := 65507 - 16

  /** "P2NAT001" */
  const ENVELOPE: Bytes := [0x50, 0x32, 0x4E, 0x41, 0x54, 0x30, 0x30, 0x31]

  datatype Errno = MessageTooLong | BadAddress | InputOutput | Refused

  /** One element of a scattered message; a null base has a length too. */
  datatype Segment = Null(count: nat) | Memory(content: Bytes)

  function CountOf(s: Segment): nat {
    if s.Null? then s.count else |s.content|
  }

  function ContentOf(s: Segment): (content: Bytes)
    ensures s.Memory? || s.count == 0 ==> |content| == CountOf(s)
  {
    if s.Memory? then s.content else []
  }

  // ----- flattening -----

  function Concatenated(segments: seq<Segment>): Bytes
    decreases |segments|
  {
    if segments == [] then []
    else ContentOf(segments[0]) + Concatenated(segments[1..])
  }

  /** The first thing wrong with the segments, once `length` bytes of the buffer are taken. */
  function FlattenError(segments: seq<Segment>, length: nat): Option<Errno>
    decreases |segments|
  {
    if segments == [] then None
    else if CountOf(segments[0]) + length > MAX_PAYLOAD then Some(MessageTooLong)
    else if segments[0].Null? && segments[0].count > 0 then Some(BadAddress)
    else FlattenError(segments[1..], length + CountOf(segments[0]))
  }

  lemma FlattenUnrolls(segments: seq<Segment>, index: nat, length: nat)
    requires index < |segments|
    ensures var s := segments[index];
      && FlattenError(segments[index..], length) ==
        (if CountOf(s) + length > MAX_PAYLOAD then Some(MessageTooLong)
         else if s.Null? && s.count > 0 then Some(BadAddress)
         else FlattenError(segments[index + 1..], length + CountOf(s)))
      && Concatenated(segments[index..]) == ContentOf(s) + Concatenated(segments[index + 1..])
  {
    assert segments[index..][1..] == segments[index + 1..];
  }

  /** The copying loop of `sendmsg`: it never writes past the buffer, whatever the lengths. */
  method Flatten(segments: seq<Segment>, payload: array<Byte>) returns (length: nat, error: Option<Errno>)
    requires payload.Length == MAX_PAYLOAD
    modifies payload
    ensures error == FlattenError(segments, 0)
    ensures length <= payload.Length
    ensures error.None? ==> payload[..length] == Concatenated(segments)
  {
    length := 0;
    assert segments[0..] == segments;
    for index := 0 to |segments|
      invariant length <= MAX_PAYLOAD
      invariant FlattenError(segments, 0) == FlattenError(segments[index..], length)
      invariant payload[..length] + Concatenated(segments[index..]) == Concatenated(segments)
    {
      FlattenUnrolls(segments, index, length);
      hide FlattenError, Concatenated, ContentOf;
      var segment := segments[index];
      var count := CountOf(segment);
      if count > MAX_PAYLOAD - length { return length, Some(MessageTooLong); }
      if count > 0 && segment.Null? { return length, Some(BadAddress); }
      ghost var rest := Concatenated(segments[index + 1..]);
      Append(payload, length, segment, rest);
      length := length + count;
    }
    return length, None;
  }

  /** Appends what one segment holds; `rest` is what will follow. */
  method Append(payload: array<Byte>, length: nat, segment: Segment, ghost rest: Bytes)
    requires length + CountOf(segment) <= payload.Length && (segment.Null? ==> segment.count == 0)
    modifies payload
    ensures payload[..length + CountOf(segment)] + rest == old(payload[..length]) + (ContentOf(segment) + rest)
  {
    ghost var before := payload[..length];
    if CountOf(segment) > 0 { Copy(payload, length, ContentOf(segment)); }
    assert payload[..length + CountOf(segment)] == before + ContentOf(segment);
  }

  method Copy(target: array<Byte>, at: nat, content: Bytes)
    requires at + |content| <= target.Length
    modifies target
    ensures target[..at] == old(target[..at]) && target[at..at + |content|] == content
  {
    for k := 0 to |content|
      invariant target[..at] == old(target[..at])
      invariant target[at..at + k] == content[..k]
    {
      target[at + k] := content[k];
      assert content[..k + 1] == content[..k] + [content[k]];
    }
  }

  lemma {:induction false} FlattenErrorNone(segments: seq<Segment>, length: nat)
    requires length <= MAX_PAYLOAD
    ensures FlattenError(segments, length) == None <==>
      (forall i | 0 <= i < |segments| :: segments[i].Null? ==> segments[i].count == 0)
      && length + |Concatenated(segments)| <= MAX_PAYLOAD
    decreases |segments|
  {
    if segments != [] {
      assert segments == [segments[0]] + segments[1..];
      if CountOf(segments[0]) + length <= MAX_PAYLOAD {
        FlattenErrorNone(segments[1..], length + CountOf(segments[0]));
      }
    }
  }

  // ----- framing -----

  datatype Destination = Destination(octets: Bytes, port: nat)

  predicate IsAddress(d: Destination) {
    |d.octets| == 4 && d.port < 0x1_0000
  }

  function Frame(d: Destination, data: Bytes): Bytes
    requires IsAddress(d) && |data| <= MAX_PAYLOAD
  {
    ENVELOPE + d.octets + PutU16(d.port) + PutU16(|data|) + data
  }

  datatype Ingress = InvalidEnvelope | OutsideLoopback | Captured(destination: Destination, data: Bytes)

  /** What the gateway makes of a frame from a loopback client. */
  function Receive(frame: Bytes): Ingress {
    if |frame| < 16 || frame[..8] != ENVELOPE || U16At(frame, 14) != |frame| - 16 then InvalidEnvelope
    else
      var d := Destination(frame[8..12], U16At(frame, 12));
      if d.octets[0] != 127 || d.port == 0 then OutsideLoopback else Captured(d, frame[16..])
  }

  /** What the shim intercepts: a datagram to an IPv4 loopback address. */
  predicate Eligible(d: Destination) {
    IsAddress(d) && d.octets[0] == 127
  }

  lemma FrameParts(d: Destination, data: Bytes)
    requires IsAddress(d) && |data| <= MAX_PAYLOAD
    ensures var f := Frame(d, data);
      && |f| == 16 + |data| && f[..8] == ENVELOPE && f[8..12] == d.octets
      && U16At(f, 12) == d.port && U16At(f, 14) == |data| && f[16..] == data
  {
    var f := Frame(d, data);
    var p, l := PutU16(d.port), PutU16(|data|);
    assert f == ENVELOPE + (d.octets + (p + (l + data)));
    assert f[12] == p[0] && f[13] == p[1] && f[14] == l[0] && f[15] == l[1];
  }

  /** The frame byte by byte: the mark, the address, port and length with the high byte first, and the payload. */
  lemma FrameBytes(d: Destination, data: Bytes)
    requires IsAddress(d) && |data| <= 65491
    ensures |data| <= MAX_PAYLOAD && |Frame(d, data)| == 16 + |data|
    ensures Frame(d, data)[..8] == [0x50, 0x32, 0x4E, 0x41, 0x54, 0x30, 0x30, 0x31] && Frame(d, data)[8..12] == d.octets
    ensures var f := Frame(d, data);
      && (f[12], f[13]) == (d.port / 256, d.port % 256) && (f[14], f[15]) == (|data| / 256, |data| % 256) && f[16..] == data
  {
    var f := Frame(d, data);
    var p, l := PutU16(d.port), PutU16(|data|);
    assert f == ENVELOPE + (d.octets + (p + (l + data)));
    assert f[12] == p[0] && f[13] == p[1] && f[14] == l[0] && f[15] == l[1];
  }

  /** The gateway recovers the destination and the payload of every framed send, except one to port 0. */
  lemma FrameIsRecovered(d: Destination, data: Bytes)
    requires Eligible(d) && |data| <= MAX_PAYLOAD
    ensures Receive(Frame(d, data)) == if d.port == 0 then OutsideLoopback else Captured(d, data)
  {
    FrameParts(d, data);
  }

  /** Conversely, nothing but the frame of that send is read as one. */
  lemma CapturedIsFrame(frame: Bytes)
    requires Receive(frame).Captured? && |frame| <= HEADER_SIZE + MAX_PAYLOAD
    ensures var r := Receive(frame); Eligible(r.destination) && frame == Frame(r.destination, r.data)
  {
    var r := Receive(frame);
    assert frame[12..14] == PutU16(r.destination.port);
    assert frame[14..16] == PutU16(|r.data|);
    assert frame == frame[..8] + frame[8..12] + frame[12..14] + frame[14..16] + frame[16..];
  }

  // ----- the counters -----

  /** What the system call made of the frame. */
  datatype Kernel = Failed | Accepted(count: nat)

  function Total(frames: seq<Bytes>): int
    decreases |frames|
  {
    if frames == [] then 0 else Total(frames[..|frames| - 1]) + |frames[|frames| - 1]| - HEADER_SIZE
  }

  class Shim {
    var packets: nat
    var bytes: int
    var errors: nat
    /** The frames the system took whole, in order. */
    ghost var wire: seq<Bytes>

    ghost predicate Valid()
      reads this
    {
      && packets == |wire| && bytes == Total(wire)
      && forall i | 0 <= i < |wire| :: exists d, data :: Eligible(d) && |data| <= MAX_PAYLOAD && wire[i] == Frame(d, data)
    }

    constructor ()
      ensures Valid() && wire == [] && errors == 0
    {
      packets, bytes, errors, wire := 0, 0, 0, [];
    }

    method SendTo(d: Destination, segment: Segment, kernel: Kernel) returns (r: Option<Errno>)
      requires Valid() && Eligible(d)
      modifies this
      ensures Valid()
      ensures r == if CountOf(segment) > MAX_PAYLOAD then Some(MessageTooLong)
                   else if segment.Null? && segment.count > 0 then Some(BadAddress)
                   else if kernel.Failed? then Some(Refused)
                   else if kernel.count != CountOf(segment) + HEADER_SIZE then Some(InputOutput)
                   else None
      ensures wire == if r.None? && CountOf(segment) <= MAX_PAYLOAD then old(wire) + [Frame(d, ContentOf(segment))] else old(wire)
      ensures errors == old(errors) + if r == Some(Refused) then 1 else 0
    {
      if CountOf(segment) > MAX_PAYLOAD { return Some(MessageTooLong); }
      if CountOf(segment) > 0 && segment.Null? { return Some(BadAddress); }
      var data := ContentOf(segment);
      var frame := Frame(d, data);
      if kernel.Failed? {
        errors := errors + 1;
        return Some(Refused);
      }
      if kernel.count != |data| + HEADER_SIZE { return Some(InputOutput); }
      FrameParts(d, data);
      packets, bytes := packets + 1, bytes + |data|;
      wire := wire + [frame];
      assert wire[..|wire| - 1] == old(wire);
      return None;
    }
  }

  /** The frames the gateway took as captures, and the payload bytes it counted. */
  function Captures(arrived: seq<Bytes>): (nat, nat)
    decreases |arrived|
  {
    if arrived == [] then (0, 0)
    else
      var (count, bytes) := Captures(arrived[..|arrived| - 1]);
      var r := Receive(arrived[|arrived| - 1]);
      if r.Captured? then (count + 1, bytes + |r.data|) else (count, bytes)
  }

  lemma {:induction false} CapturesBound(arrived: seq<Bytes>)
    ensures Captures(arrived).0 <= |arrived|
    ensures Captures(arrived).0 == |arrived| ==> forall i | 0 <= i < |arrived| :: Receive(arrived[i]).Captured?
    decreases |arrived|
  {
    if arrived != [] {
      CapturesBound(arrived[..|arrived| - 1]);
    }
  }

  /**
   On a channel that may lose and reorder frames but adds none, equal counts mean that every frame arrived and every one
   was captured.
   */
  lemma EqualCountsLoseNothing(wire: seq<Bytes>, arrived: seq<Bytes>)
    requires multiset(arrived) <= multiset(wire) && Captures(arrived).0 == |wire|
    ensures multiset(arrived) == multiset(wire)
    ensures forall frame | frame in wire :: Receive(frame).Captured?
  {
    CapturesBound(arrived);
    var missing := multiset(wire) - multiset(arrived);
    assert multiset(wire) == multiset(arrived) + missing;
    assert |multiset(wire)| == |wire| && |multiset(arrived)| == |arrived|;
    assert |missing| == 0;
    forall frame | frame in wire ensures Receive(frame).Captured? {
      assert frame in multiset(wire);
      assert frame in arrived;
    }
  }
}
