/**
  The fixed-width big-endian fields of a cross-chain proof payload. The decoders
  are the source's; the encoder is the counterpart they are proved against.
 */
module ProofPayload {
  import opened Wrappers

  newtype Byte = b: int | 0 <= b < 256

  const PAYLOAD_LEN := 102
  const I128_LIMIT := 0x8000_0000_0000_0000_0000_0000_0000_0000

  function Power(width: nat): nat {
    if width == 0 then 1 else 256 * Power(width - 1)
  }

  /** `from_be_bytes` of an unsigned integer: most significant byte first. */
  function Value(bytes: seq<Byte>): nat {
    if bytes == [] then 0 else 256 * Value(bytes[..|bytes| - 1]) + bytes[|bytes| - 1] as nat
  }

  /** `to_be_bytes`. */
  function Digits(n: nat, width: nat): seq<Byte> {
    if width == 0 then [] else Digits(n / 256, width - 1) + [(n % 256) as Byte]
  }

  lemma {:induction false} DigitsRead(n: nat, width: nat)
    requires n < Power(width)
    ensures |Digits(n, width)| == width
    ensures Value(Digits(n, width)) == n
  {
    if width > 0 {
      DigitsRead(n / 256, width - 1);
      assert Digits(n, width)[..width - 1] == Digits(n / 256, width - 1);
    }
  }

  lemma {:induction false} ValueWritten(bytes: seq<Byte>)
    ensures Value(bytes) < Power(|bytes|)
    ensures Digits(Value(bytes), |bytes|) == bytes
  {
    if bytes != [] {
      ValueWritten(bytes[..|bytes| - 1]);
    }
  }

  /** Two's complement over 16 bytes. */
  function Signed(n: nat): int { if n < I128_LIMIT then n else n - 2 * I128_LIMIT }

  function Unsigned(x: int): nat
    requires -I128_LIMIT <= x < I128_LIMIT
  {
    if x >= 0 then x else x + 2 * I128_LIMIT
  }

  /** The field of `width` bytes at `offset`, absent when it does not fit. */
  function Field(bytes: seq<Byte>, offset: nat, width: nat): Option<seq<Byte>> {
    if offset + width > |bytes| then None else Some(bytes[offset..offset + width])
  }

  function DecodeUnsigned(bytes: seq<Byte>, offset: nat, width: nat): Option<nat> {
    match Field(bytes, offset, width)
    case None => None
    case Some(f) => Some(Value(f))
  }

  function DecodeI128(bytes: seq<Byte>, offset: nat): Option<int> {
    match Field(bytes, offset, 16)
    case None => None
    case Some(f) => Some(Signed(Value(f)))
  }

  function DecodeU32(bytes: seq<Byte>, offset: nat): Option<nat> { DecodeUnsigned(bytes, offset, 4) }

  function DecodeU16(bytes: seq<Byte>, offset: nat): Option<nat> { DecodeUnsigned(bytes, offset, 2) }

  function DecodeChainId(payload: seq<Byte>): Option<nat> {
    if |payload| != PAYLOAD_LEN then None else DecodeU16(payload, 52)
  }

  function DecodeSrcAmount(payload: seq<Byte>): Option<int> {
    if |payload| != PAYLOAD_LEN then None else DecodeI128(payload, 86)
  }

  /** An unsigned field reads back wherever it was written. */
  lemma UnsignedRoundTrip(before: seq<Byte>, n: nat, width: nat, after: seq<Byte>)
    requires n < Power(width)
    ensures DecodeUnsigned(before + Digits(n, width) + after, |before|, width) == Some(n)
  {
    DigitsRead(n, width);
    assert (before + Digits(n, width) + after)[|before|..|before| + width] == Digits(n, width);
  }

  lemma Widths()
    ensures Power(2) == 0x1_0000 && Power(4) == 0x1_0000_0000 && Power(16) == 2 * I128_LIMIT
  {
  }

  /** Negative amounts included. */
  lemma I128RoundTrip(before: seq<Byte>, x: int, after: seq<Byte>)
    requires -I128_LIMIT <= x < I128_LIMIT
    ensures DecodeI128(before + Digits(Unsigned(x), 16) + after, |before|) == Some(x)
  {
    Widths();
    UnsignedRoundTrip(before, Unsigned(x), 16, after);
  }

  /** What an i128 field decodes to is in range and encodes to the same bytes. */
  lemma I128Faithful(bytes: seq<Byte>, offset: nat)
    ensures DecodeI128(bytes, offset).Some? <==> offset + 16 <= |bytes|
    ensures DecodeI128(bytes, offset).Some? ==>
              var x := DecodeI128(bytes, offset).value;
              -I128_LIMIT <= x < I128_LIMIT && Digits(Unsigned(x), 16) == bytes[offset..offset + 16]
  {
    if offset + 16 <= |bytes| {
      Widths();
      ValueWritten(bytes[offset..offset + 16]);
    }
  }

  // ----- The whole payload -----

  datatype Payload = Payload(intentId: seq<Byte>, srcUser: seq<Byte>, chainId: nat, srcToken: seq<Byte>, amount: int) {
    predicate Valid() {
      && |intentId| == 32 && |srcUser| == 20 && |srcToken| == 32
      && chainId < 0x1_0000
      && -I128_LIMIT <= amount < I128_LIMIT
    }

    function Encode(): seq<Byte>
      requires Valid()
    {
      intentId + srcUser + Digits(chainId, 2) + srcToken + Digits(Unsigned(amount), 16)
    }
  }

  function Parse(payload: seq<Byte>): Option<Payload> {
    match (DecodeChainId(payload), DecodeSrcAmount(payload))
    case (Some(c), Some(x)) => Some(Payload(payload[0..32], payload[32..52], c, payload[54..86], x))
    case _ => None
  }

  /** Every well-formed payload is 102 bytes and decodes field by field to itself. */
  lemma PayloadRoundTrip(p: Payload)
    requires p.Valid()
    ensures |p.Encode()| == PAYLOAD_LEN
    ensures DecodeChainId(p.Encode()) == Some(p.chainId)
    ensures DecodeSrcAmount(p.Encode()) == Some(p.amount)
    ensures Parse(p.Encode()) == Some(p)
  {
    Widths();
    var bytes, chain, amount := p.Encode(), Digits(p.chainId, 2), Digits(Unsigned(p.amount), 16);
    DigitsRead(p.chainId, 2);
    DigitsRead(Unsigned(p.amount), 16);
    UnsignedRoundTrip(p.intentId + p.srcUser, p.chainId, 2, p.srcToken + amount);
    assert bytes == p.intentId + p.srcUser + chain + (p.srcToken + amount);
    I128RoundTrip(p.intentId + p.srcUser + chain + p.srcToken, p.amount, []);
    assert bytes == p.intentId + p.srcUser + chain + p.srcToken + amount + [];
    assert bytes[0..32] == p.intentId && bytes[32..52] == p.srcUser && bytes[54..86] == p.srcToken;
  }

  /** Exactly the 102-byte strings parse, and each is the encoding of what it parses to. */
  lemma PayloadFaithful(bytes: seq<Byte>)
    ensures Parse(bytes).Some? <==> |bytes| == PAYLOAD_LEN
    ensures Parse(bytes).Some? ==> Parse(bytes).value.Valid() && Parse(bytes).value.Encode() == bytes
  {
    if |bytes| == PAYLOAD_LEN {
      Widths();
      ValueWritten(bytes[52..54]);
      I128Faithful(bytes, 86);
      var p := Parse(bytes).value;
      assert p.Encode() == bytes[0..32] + bytes[32..52] + bytes[52..54] + bytes[54..86] + bytes[86..102];
    }
  }
}
