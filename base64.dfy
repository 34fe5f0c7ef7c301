/** Standard base64 encoding, section 4 of RFC 4648: every three bytes become
    four characters of the 64-character alphabet, and a final group of one or
    two bytes is padded with `=` to four characters. */
module Base64 {
  import opened IAPTypes

  /** A character of the alphabet of Table 1 of RFC 4648. */
  predicate IsDigit(c: char)
  {
    ('A' <= c <= 'Z') || ('a' <= c <= 'z') || ('0' <= c <= '9') || c == '+' || c == '/'
  }

  /** The character for a 6-bit value, per Table 1 of RFC 4648. */
  function Digit(v: nat): (c: char)
    requires v < 64
    ensures IsDigit(c)
  {
    if v < 26 then ('A' as int + v) as char
    else if v < 52 then ('a' as int + (v - 26)) as char
    else if v < 62 then ('0' as int + (v - 52)) as char
    else if v == 62 then '+'
    else '/'
  }

  /** Three bytes as four digits. */
  function Quantum(b0: byte, b1: byte, b2: byte): (s: string)
    ensures |s| == 4 && forall i :: 0 <= i < 4 ==> IsDigit(s[i])
  {
    [Digit(b0 / 4), Digit(b0 % 4 * 16 + b1 / 16), Digit(b1 % 16 * 4 + b2 / 64), Digit(b2 % 64)]
  }

  /** The last one or two bytes, padded to four characters. */
  function Final(data: seq<byte>): (s: string)
    requires 1 <= |data| <= 2
    ensures |s| == 4 && IsDigit(s[0]) && IsDigit(s[1]) && s[3] == '='
    ensures s[2] == '=' <==> |data| == 1
  {
    if |data| == 1 then [Digit(data[0] / 4), Digit(data[0] % 4 * 16), '=', '=']
    else [Digit(data[0] / 4), Digit(data[0] % 4 * 16 + data[1] / 16), Digit(data[1] % 16 * 4), '=']
  }

  function Encode(data: seq<byte>): (s: string)
    ensures |s| == 4 * ((|data| + 2) / 3)
    ensures forall i :: 0 <= i < |s| ==> IsDigit(s[i]) || s[i] == '='
    ensures forall i :: 0 <= i < |s| - 2 ==> IsDigit(s[i])
    ensures |data| % 3 == 0 ==> forall i :: 0 <= i < |s| ==> IsDigit(s[i])
    decreases |data|
  {
    if |data| == 0 then ""
    else if |data| < 3 then Final(data)
    else
      var head := Quantum(data[0], data[1], data[2]);
      var tail := Encode(data[3..]);
      assert (|data| - 3 + 2) / 3 == (|data| + 2) / 3 - 1;
      assert forall i :: 4 <= i < 4 + |tail| ==> (head + tail)[i] == tail[i - 4];
      head + tail
  }
}
