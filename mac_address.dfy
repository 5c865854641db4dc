/**
 * The router MAC address generated by `DataDirectorPLUMgrid._create_mac`.
 * The three random bytes are parameters; the address is rendered as six
 * `%02x` pairs joined by ':'.
 */
module MacAddress {
  import opened Util

  /** The fixed vendor bytes 00:24:81 that open every generated address. */
  const VendorPrefix: seq<nat> := [0x00, 0x24, 0x81]

  predicate IsHexDigit(c: char) { '0' <= c <= '9' || 'a' <= c <= 'f' }

  function DigitValue(c: char): nat
    requires IsHexDigit(c)
  {
    if c <= '9' then c as int - '0' as int else c as int - 'a' as int + 10
  }

  /** One lowercase hexadecimal digit, as `%x` renders it; DigitValue reads it back. */
  function HexDigit(d: nat): (c: char)
    requires d < 16
    ensures IsHexDigit(c) && DigitValue(c) == d
  {
    if d < 10 then ('0' as int + d) as char else ('a' as int + d - 10) as char
  }

  predicate IsByte(x: nat) { x < 256 }

  predicate AllBytes(bytes: seq<nat>) { forall i :: 0 <= i < |bytes| ==> IsByte(bytes[i]) }

  /** The value of two hexadecimal digits, high digit first. */
  function PairValue(hi: char, lo: char): nat
    requires IsHexDigit(hi) && IsHexDigit(lo)
  {
    16 * DigitValue(hi) + DigitValue(lo)
  }

  /** `"%02x" % x`: two lowercase digits, zero-padded, that read back as `x`. */
  function Hex2(x: nat): (s: string)
    requires IsByte(x)
    ensures |s| == 2 && IsHexDigit(s[0]) && IsHexDigit(s[1])
    ensures PairValue(s[0], s[1]) == x
  {
    [HexDigit(x / 16), HexDigit(x % 16)]
  }

  /**
   * The colon-separated rendering: position i is ':' exactly when i % 3 == 2,
   * every other position is a lowercase hex digit.
   */
  ghost predicate ColonHex(s: string)
  {
    forall i :: 0 <= i < |s| ==> if i % 3 == 2 then s[i] == ':' else IsHexDigit(s[i])
  }

  /** `':'.join(map(lambda x: "%02x" % x, bytes))`. */
  function JoinHex(bytes: seq<nat>): (s: string)
    requires AllBytes(bytes)
    ensures |s| == if bytes == [] then 0 else 3 * |bytes| - 1
    ensures ColonHex(s)
    decreases |bytes|
  {
    if bytes == [] then ""
    else if |bytes| == 1 then Hex2(bytes[0])
    else Hex2(bytes[0]) + ":" + JoinHex(bytes[1..])
  }

  /** Reads colon-separated hex pairs back into bytes; None on any malformed input. */
  function ParseHexPairs(s: string): Option<seq<nat>>
    decreases |s|
  {
    if |s| < 2 || !IsHexDigit(s[0]) || !IsHexDigit(s[1]) then None
    else if |s| == 2 then Some([PairValue(s[0], s[1])])
    else if s[2] != ':' then None
    else
      match ParseHexPairs(s[3..])
      case None => None
      case Some(rest) => Some([PairValue(s[0], s[1])] + rest)
  }

  /** Rendering then parsing gives the bytes back, so the rendering loses nothing. */
  lemma {:induction false} ParseJoinHex(bytes: seq<nat>)
    requires |bytes| > 0 && AllBytes(bytes)
    ensures ParseHexPairs(JoinHex(bytes)) == Some(bytes)
    decreases |bytes|
  {
    var h := Hex2(bytes[0]);
    var s := JoinHex(bytes);
    if |bytes| == 1 {
      assert s == h && bytes == [bytes[0]];
    } else {
      var tail := JoinHex(bytes[1..]);
      assert s == h + ":" + tail;
      assert s[0] == h[0] && s[1] == h[1] && s[2] == ':' && s[3..] == tail;
      ParseJoinHex(bytes[1..]);
      assert [bytes[0]] + bytes[1..] == bytes;
    }
  }

  /** The six bytes of a generated address: the vendor prefix, then the three random bytes. */
  function MacBytes(b3: nat, b4: nat, b5: nat): seq<nat>
  {
    VendorPrefix + [b3, b4, b5]
  }

  /**
   * `_create_mac` with the three `random.randint` draws as parameters, in the
   * ranges the source draws them from.
   */
  function CreateMac(b3: nat, b4: nat, b5: nat): (mac: string)
    requires b3 <= 0x7f && b4 <= 0xff && b5 <= 0xff
    ensures |mac| == 17
    ensures ColonHex(mac)
    ensures mac[..8] == "00:24:81"
    ensures ParseHexPairs(mac) == Some([0x00, 0x24, 0x81, b3, b4, b5])
  {
    var bytes := MacBytes(b3, b4, b5);
    var mac := JoinHex(bytes);
    assert bytes[1..][1..] == bytes[2..] && bytes[2..][1..] == bytes[3..];
    assert mac == Hex2(0x00) + ":" + JoinHex(bytes[1..]);
    assert JoinHex(bytes[1..]) == Hex2(0x24) + ":" + JoinHex(bytes[2..]);
    assert JoinHex(bytes[2..]) == Hex2(0x81) + ":" + JoinHex(bytes[3..]);
    assert Hex2(0x00) == "00" && Hex2(0x24) == "24" && Hex2(0x81) == "81";
    assert mac[..8] == "00:24:81";
    ParseJoinHex(bytes);
    assert bytes == [0x00, 0x24, 0x81, b3, b4, b5];
    mac
  }
}
