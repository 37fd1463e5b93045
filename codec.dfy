/**
 * The packet-record codec: a raw settings packet is kept as the hexadecimal
 * text of its bytes, cut at fixed positions into a length field, an opcode
 * field and a payload field (index.js:85-92); reapplying a record glues the
 * three fields back together and hex-decodes them (index.js:109-114).
 */
module Codec {
  import opened Wrappers

  type byte = x: int | 0 <= x < 256

  /** A lower-case hexadecimal digit, as Buffer.toString('hex') writes them. */
  predicate IsLowerHex(c: char) {
    '0' <= c <= '9' || 'a' <= c <= 'f'
  }

  function HexDigit(n: int): (c: char)
    requires 0 <= n < 16
    ensures IsLowerHex(c)
  {
    if n < 10 then ('0' as int + n) as char else ('a' as int + n - 10) as char
  }

  /** The value of one hexadecimal digit of either case, or None for any other character. */
  function HexValue(c: char): (r: Option<int>)
    ensures r.Some? ==> 0 <= r.value < 16
    ensures IsLowerHex(c) ==> r.Some?
  {
    if '0' <= c <= '9' then Some(c as int - '0' as int)
    else if 'a' <= c <= 'f' then Some(c as int - 'a' as int + 10)
    else if 'A' <= c <= 'F' then Some(c as int - 'A' as int + 10)
    else None
  }

  lemma HexValueOfDigit(n: int)
    requires 0 <= n < 16
    ensures HexValue(HexDigit(n)) == Some(n)
  {
  }

  /** Buffer.toString('hex'): two lower-case digits per byte, high nibble first. */
  function HexEncode(b: seq<byte>): (h: string)
    ensures |h| == 2 * |b|
    ensures forall i :: 0 <= i < |h| ==> IsLowerHex(h[i])
  {
    if b == [] then [] else [HexDigit(b[0] / 16), HexDigit(b[0] % 16)] + HexEncode(b[1..])
  }

  /**
   * Buffer.from(h, 'hex'): reads digit pairs from the left and stops at the
   * first pair that is not two hexadecimal digits; an odd last digit is dropped.
   */
  function HexDecode(h: string): (b: seq<byte>)
    ensures |b| <= |h| / 2
    ensures (|h| % 2 == 0 && forall i :: 0 <= i < |h| ==> HexValue(h[i]).Some?) ==> |b| == |h| / 2
  {
    if |h| < 2 then []
    else
      match (HexValue(h[0]), HexValue(h[1]))
      case (Some(hi), Some(lo)) => [hi * 16 + lo] + HexDecode(h[2..])
      case _ => []
  }

  lemma {:induction false} HexEncodeAppend(a: seq<byte>, b: seq<byte>)
    ensures HexEncode(a + b) == HexEncode(a) + HexEncode(b)
  {
    if a != [] {
      assert (a + b)[1..] == a[1..] + b;
      HexEncodeAppend(a[1..], b);
    } else {
      assert a + b == b;
    }
  }

  /** Hex-decoding undoes hex-encoding, for every buffer. */
  lemma {:induction false} HexDecodeEncode(b: seq<byte>)
    ensures HexDecode(HexEncode(b)) == b
  {
    if b != [] {
      var h := HexEncode(b);
      HexValueOfDigit(b[0] / 16);
      HexValueOfDigit(b[0] % 16);
      assert h[2..] == HexEncode(b[1..]);
      HexDecodeEncode(b[1..]);
    }
  }

  /** One captured settings packet: three positional slices of its hex text. */
  datatype PacketRecord = PacketRecord(length: string, opcode: string, payload: string)

  function Min(a: int, b: int): int {
    if a <= b then a else b
  }

  /**
   * parseRawPacketData: hex characters 0-4, 4-8 and 8-end, with the clamping
   * of JavaScript's String.prototype.slice when the text is shorter.
   */
  function ParseRawPacketData(buffer: seq<byte>): (r: PacketRecord)
    ensures r.length + r.opcode + r.payload == HexEncode(buffer)
  {
    var hex := HexEncode(buffer);
    var a := Min(4, |hex|);
    var b := Min(8, |hex|);
    assert hex == hex[..a] + hex[a..b] + hex[b..];
    PacketRecord(hex[..a], hex[a..b], hex[b..])
  }

  /** All three fields are non-empty exactly when the buffer has at least 5 bytes. */
  lemma ParsedFieldsNonEmptyIff(buffer: seq<byte>)
    ensures var r := ParseRawPacketData(buffer);
            (r.length != [] && r.opcode != [] && r.payload != []) <==> |buffer| >= 5
  {
    var hex := HexEncode(buffer);
    assert |hex| == 2 * |buffer|;
  }

  /** With at least a 4-byte header, the fields are the hex of bytes 0-2, 2-4 and the rest. */
  lemma ParsedFieldsAreHeaderAndBody(buffer: seq<byte>)
    requires |buffer| >= 4
    ensures ParseRawPacketData(buffer) ==
            PacketRecord(HexEncode(buffer[..2]), HexEncode(buffer[2..4]), HexEncode(buffer[4..]))
  {
    assert buffer == buffer[..2] + buffer[2..4] + buffer[4..];
    HexEncodeAppend(buffer[..2], buffer[2..4]);
    HexEncodeAppend(buffer[..2] + buffer[2..4], buffer[4..]);
  }

  /**
   * The buffer a stored record is turned back into before it is sent to the
   * client; None when any field is empty (a record the source calls corrupt).
   */
  function Reconstruct(r: PacketRecord): (b: Option<seq<byte>>)
    ensures b.None? <==> (r.length == [] || r.opcode == [] || r.payload == [])
  {
    if r.length == [] || r.opcode == [] || r.payload == [] then None
    else Some(HexDecode(r.length + r.opcode + r.payload))
  }

  /** Round trip: a captured packet of five or more bytes is rebuilt byte for byte; a shorter one is refused. */
  lemma ReconstructParsed(buffer: seq<byte>)
    ensures Reconstruct(ParseRawPacketData(buffer)) == if |buffer| >= 5 then Some(buffer) else None
  {
    ParsedFieldsNonEmptyIff(buffer);
    HexDecodeEncode(buffer);
  }
}
