/** Bytes on the wire, big-endian words, and the strict request parser of the NAT simulator. */
module StunCodec {
  import opened Wrappers

  type Byte = b: int | 0 <= b < 256
  type Bytes = seq<Byte>

  const MAGIC_COOKIE: nat := 0x2112A442
  const BINDING_REQUEST: nat := 0x0001
  const BINDING_RESPONSE: nat := 0x0101
  const XOR_MAPPED_ADDRESS: nat := 0x0020
  const CHANGE_REQUEST: nat := 0x0003

  function U16At(data: Bytes, i: nat): (r: nat)
    requires i + 2 <= |data|
    ensures r < 0x1_0000
  {
    var high: int := data[i];
    high * 0x100 + data[i + 1]
  }

  function U32At(data: Bytes, i: nat): (r: nat)
    requires i + 4 <= |data|
    ensures r < 0x1_0000_0000
  {
    U16At(data, i) * 0x1_0000 + U16At(data, i + 2)
  }

  /** The header a parser insists on before it looks at anything else. */
  predicate IsRequest(data: Bytes) {
    |data| >= 20 && U16At(data, 0) == BINDING_REQUEST && U32At(data, 4) == MAGIC_COOKIE
  }

  /** The transaction of a Binding Request whose length field is aligned and exact. */
  function ParseBindingRequest(data: Bytes): Option<Bytes> {
    if !IsRequest(data) || U16At(data, 2) % 4 != 0 || |data| != 20 + U16At(data, 2) then None else Some(data[8..20])
  }
}
