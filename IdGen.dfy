/**
 * generateID (internal/handlers/handlers.go:27-34): eight bytes from the
 * random source written as lower-case hexadecimal, or, when the random
 * source fails, the clock in nanoseconds as decimal text.  The random
 * bytes are an input of the model, never produced by it.
 */
module IdGen {
  import opened Records
  import Decimal

  type byte = x: int | 0 <= x < 256

  /** The eight bytes crypto/rand.Read fills in. */
  type Bytes8 = s: seq<byte> | |s| == 8 witness [0, 0, 0, 0, 0, 0, 0, 0]

  /** What the random source delivered for one call. */
  datatype Entropy = Random(bytes: Bytes8) | Unavailable

  predicate IsHexDigit(c: char) {
    '0' <= c <= '9' || 'a' <= c <= 'f'
  }

  function HexDigit(d: nat): (c: char)
    requires d < 16
    ensures IsHexDigit(c)
  {
    if d < 10 then (d + '0' as int) as char else (d - 10 + 'a' as int) as char
  }

  function HexValue(c: char): (d: nat)
    requires IsHexDigit(c)
    ensures d < 16
  {
    if c <= '9' then c as int - '0' as int else c as int - 'a' as int + 10
  }

  /** hex.EncodeToString: two lower-case digits per byte, high nibble first. */
  function HexEncode(bytes: seq<byte>): (s: string)
    ensures |s| == 2 * |bytes|
    ensures forall i :: 0 <= i < |s| ==> IsHexDigit(s[i])
  {
    if bytes == [] then []
    else [HexDigit(bytes[0] / 16), HexDigit(bytes[0] % 16)] + HexEncode(bytes[1..])
  }

  /** The inverse of HexEncode; None for text that is not pairs of hex digits. */
  function HexDecode(s: string): Option<seq<byte>>
    decreases |s|
  {
    if s == [] then Some([])
    else if |s| < 2 || !IsHexDigit(s[0]) || !IsHexDigit(s[1]) then None
    else match HexDecode(s[2..])
      case None => None
      case Some(rest) => Some([(HexValue(s[0]) * 16 + HexValue(s[1])) as byte] + rest)
  }

  lemma {:induction false} HexRoundTrip(bytes: seq<byte>)
    ensures HexDecode(HexEncode(bytes)) == Some(bytes)
    decreases |bytes|
  {
    if bytes != [] {
      var s := HexEncode(bytes);
      assert s[2..] == HexEncode(bytes[1..]);
      HexRoundTrip(bytes[1..]);
      assert HexValue(HexDigit(bytes[0] / 16)) == bytes[0] / 16;
      assert HexValue(HexDigit(bytes[0] % 16)) == bytes[0] % 16;
      assert [bytes[0]] + bytes[1..] == bytes;
    }
  }

  /**
   * generateID with the random source's outcome and the clock as inputs.
   * A random id is 16 hex digits that decode back to the eight bytes; the
   * fallback id is the decimal text of the nanosecond clock.
   */
  function GenerateID(entropy: Entropy, nanos: int): (id: string)
    ensures entropy.Random? ==> |id| == 16 && var b: seq<byte> := entropy.bytes; HexDecode(id) == Some(b)
    ensures entropy.Random? ==> forall i :: 0 <= i < |id| ==> IsHexDigit(id[i])
    ensures entropy.Unavailable? ==> Decimal.Parse(id) == Some(nanos)
  {
    match entropy
    case Random(bytes) =>
      HexRoundTrip(bytes);
      HexEncode(bytes)
    case Unavailable =>
      Decimal.ParseFormat(nanos);
      Decimal.Format(nanos)
  }
}
