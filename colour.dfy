/** `hexToRgb` (script.js:959-966): a colour written as three two-digit
    hexadecimal groups, with an optional leading `#`, read as a triple of
    channel values; anything else gives `null`. */
module Colour {
  import opened Wrappers

  datatype Rgb = Rgb(r: nat, g: nat, b: nat)

  /** `[a-f\d]` under the `i` flag: an ASCII hexadecimal digit of either case. */
  predicate IsHexDigit(c: char) {
    '0' <= c <= '9' || 'a' <= c <= 'f' || 'A' <= c <= 'F'
  }

  predicate AllHex(s: string) {
    forall i :: 0 <= i < |s| ==> IsHexDigit(s[i])
  }

  function HexDigitValue(c: char): (v: nat)
    requires IsHexDigit(c)
    ensures v < 16
  {
    if c <= '9' then c as int - '0' as int
    else if c >= 'a' then c as int - 'a' as int + 10
    else c as int - 'A' as int + 10
  }

  /** `parseInt(group, 16)` for a group of two hexadecimal digits. */
  function ParseGroup(high: char, low: char): (v: nat)
    requires IsHexDigit(high) && IsHexDigit(low)
    ensures v < 256
  {
    16 * HexDigitValue(high) + HexDigitValue(low)
  }

  /** The strings `/^#?([a-f\d]{2})([a-f\d]{2})([a-f\d]{2})$/i` matches: six
      hexadecimal digits, alone or after one `#`. */
  predicate MatchesHexColour(s: string) {
    || (|s| == 6 && AllHex(s))
    || (|s| == 7 && s[0] == '#' && AllHex(s[1..]))
  }

  /** The digits after the optional `#`. */
  function Digits(s: string): string {
    if |s| > 0 && s[0] == '#' then s[1..] else s
  }

  /** `hexToRgb`: the channel values of a matching string, each within
      0..255; `None` (the source's `null`) for any other string. */
  function HexToRgb(hex: string): (c: Option<Rgb>)
    ensures c.Some? <==> MatchesHexColour(hex)
    ensures c.Some? ==> c.value.r < 256 && c.value.g < 256 && c.value.b < 256
  {
    var d := Digits(hex);
    if |d| == 6 && AllHex(d) then
      Some(Rgb(ParseGroup(d[0], d[1]), ParseGroup(d[2], d[3]), ParseGroup(d[4], d[5])))
    else
      None
  }

  /** The lower-case hexadecimal digit of a value below 16. */
  function HexChar(v: nat): (c: char)
    requires v < 16
    ensures IsHexDigit(c)
  {
    if v < 10 then ('0' as int + v) as char else ('a' as int + v - 10) as char
  }

  /** A channel value below 256 as two lower-case hexadecimal digits. */
  function HexGroup(v: nat): string
    requires v < 256
  {
    [HexChar(v / 16), HexChar(v % 16)]
  }

  /** `#rrggbb` in lower case: the form colour inputs produce. */
  function FormatHex(c: Rgb): string
    requires c.r < 256 && c.g < 256 && c.b < 256
  {
    "#" + HexGroup(c.r) + HexGroup(c.g) + HexGroup(c.b)
  }

  /** An ASCII letter in lower case; every other character unchanged. */
  function LowerChar(c: char): char {
    if 'A' <= c <= 'Z' then (c as int - 'A' as int + 'a' as int) as char else c
  }

  function Lower(s: string): (r: string)
    ensures |r| == |s| && forall i :: 0 <= i < |s| ==> r[i] == LowerChar(s[i])
  {
    seq(|s|, i requires 0 <= i < |s| => LowerChar(s[i]))
  }

  /** Every colour with channels in range reads back from its `#rrggbb` form. */
  lemma FormatThenParse(c: Rgb)
    requires c.r < 256 && c.g < 256 && c.b < 256
    ensures HexToRgb(FormatHex(c)) == Some(c)
  {
    GroupRoundTrip(c.r);
    GroupRoundTrip(c.g);
    GroupRoundTrip(c.b);
    var s := FormatHex(c);
    assert Digits(s) == HexGroup(c.r) + HexGroup(c.g) + HexGroup(c.b);
  }

  lemma GroupRoundTrip(v: nat)
    requires v < 256
    ensures ParseGroup(HexGroup(v)[0], HexGroup(v)[1]) == v
  {
    HexDigitRoundTrip(v / 16);
    HexDigitRoundTrip(v % 16);
  }

  lemma HexDigitRoundTrip(v: nat)
    requires v < 16
    ensures HexDigitValue(HexChar(v)) == v
  {
  }

  /** Conversely, a string that parses is, up to the case of its letters and
      the optional `#`, the `#rrggbb` form of what it parses to; so parsing
      ignores case, and two strings parse to the same colour exactly when
      they agree on that form. */
  lemma ParseThenFormat(hex: string)
    requires HexToRgb(hex).Some?
    ensures FormatHex(HexToRgb(hex).value) == "#" + Lower(Digits(hex))
  {
    var d := Digits(hex);
    var c := HexToRgb(hex).value;
    GroupOfDigits(d[0], d[1]);
    GroupOfDigits(d[2], d[3]);
    GroupOfDigits(d[4], d[5]);
    var l := Lower(d);
    assert l == [LowerChar(d[0]), LowerChar(d[1])] + [LowerChar(d[2]), LowerChar(d[3])]
                + [LowerChar(d[4]), LowerChar(d[5])];
  }

  lemma GroupOfDigits(high: char, low: char)
    requires IsHexDigit(high) && IsHexDigit(low)
    ensures HexGroup(ParseGroup(high, low)) == [LowerChar(high), LowerChar(low)]
  {
    var v := ParseGroup(high, low);
    assert v / 16 == HexDigitValue(high) && v % 16 == HexDigitValue(low);
    DigitOfValue(high);
    DigitOfValue(low);
  }

  lemma DigitOfValue(c: char)
    requires IsHexDigit(c)
    ensures HexChar(HexDigitValue(c)) == LowerChar(c)
  {
  }
}
