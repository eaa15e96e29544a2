/**
 * `Data.hex()`: every byte as two lower-case hexadecimal digits
 * (`String(format: "%02hhx", byte)`), joined without separator.
 */
module HexFormat {
  import opened Wrappers
  import opened Gatt

  /** The lower-case hexadecimal digit of `n`. */
  function HexDigit(n: int): (c: char)
    requires 0 <= n < 16
    ensures DigitValue(c) == Some(n)
  {
    if n < 10 then ('0' as int + n) as char else ('a' as int + n - 10) as char
  }

  /** The value of a lower-case hexadecimal digit, None for any other character. */
  function DigitValue(c: char): (r: Option<int>)
    ensures r.Some? ==> 0 <= r.value < 16
  {
    if '0' <= c <= '9' then Some(c as int - '0' as int)
    else if 'a' <= c <= 'f' then Some(c as int - 'a' as int + 10)
    else None
  }

  /** `hex()`: two digits per byte, high nibble first. */
  function Hex(data: seq<Byte>): (r: string)
    ensures |r| == 2 * |data|
  {
    if data == [] then []
    else [HexDigit(data[0] / 16), HexDigit(data[0] % 16)] + Hex(data[1..])
  }

  /** Reads a string of digit pairs back into bytes; None when a character is not a digit or one is left over. */
  function Unhex(s: string): (r: Option<seq<Byte>>)
    ensures r.Some? ==> 2 * |r.value| == |s|
    decreases |s|
  {
    if s == [] then Some([])
    else if |s| == 1 then None
    else
      match (DigitValue(s[0]), DigitValue(s[1]), Unhex(s[2..]))
      case (Some(hi), Some(lo), Some(rest)) => Some([hi * 16 + lo] + rest)
      case _ => None
  }

  /** Round trip: the hex dump of any data reads back as that data. */
  lemma {:induction false} HexRoundTrip(data: seq<Byte>)
    ensures Unhex(Hex(data)) == Some(data)
    decreases |data|
  {
    if data != [] {
      var b := data[0];
      var hi, lo := b / 16, b % 16;
      HexRoundTrip(data[1..]);
      var s := Hex(data);
      assert s[0] == HexDigit(hi) && s[1] == HexDigit(lo) && s[2..] == Hex(data[1..]);
      assert Unhex(s) == Some([hi * 16 + lo] + data[1..]);
      assert hi * 16 + lo == b;
      assert [b] + data[1..] == data;
    }
  }

  /** Different data never give the same dump. */
  lemma HexInjective(a: seq<Byte>, b: seq<Byte>)
    requires Hex(a) == Hex(b)
    ensures a == b
  {
    HexRoundTrip(a);
    HexRoundTrip(b);
  }
}
