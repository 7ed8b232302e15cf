/**
 * `hexToRgb` (lib/utils.ts) and the inline copy in the legacy overlay
 * (js/canvas.js): the red, green and blue components are read with
 * `parseInt(hex.substr(k, 2), 16)` at the fixed offsets 1, 3 and 5.
 * JavaScript's `parseInt` is modelled as it behaves: leading white space is
 * skipped, an optional sign and an optional `0x` prefix are accepted, the
 * longest run of hexadecimal digits is read, and no digit at all gives NaN
 * (`None`). The colour inputs of the editor are guarded by
 * `/^#[0-9A-F]{6}$/i`, which is `IsHexColor`.
 */
module HexColor {
  import opened Wrappers
  import opened Strings

  datatype Rgb = Rgb(r: Option<int>, g: Option<int>, b: Option<int>)

  /** `s.substr(start, length)` for a non-negative start. */
  function Substr(s: string, start: nat, length: nat): (r: string)
    ensures |r| <= length
  {
    var from := if start <= |s| then start else |s|;
    var to := if from + length <= |s| then from + length else |s|;
    s[from..to]
  }

  /** The value of one hexadecimal digit, in either case. */
  function DigitValue(c: char): (d: Option<nat>)
    ensures d.Some? ==> d.value < 16
  {
    if '0' <= c <= '9' then Some(c as nat - '0' as nat)
    else if 'a' <= c <= 'f' then Some(c as nat - 'a' as nat + 10)
    else if 'A' <= c <= 'F' then Some(c as nat - 'A' as nat + 10)
    else None
  }

  predicate IsHexDigit(c: char) {
    DigitValue(c).Some?
  }

  /** The longest prefix of `s` made of hexadecimal digits. */
  function DigitRun(s: string): (r: string)
    ensures |r| <= |s| && r == s[..|r|]
    ensures forall i :: 0 <= i < |r| ==> IsHexDigit(r[i])
    ensures |r| < |s| ==> !IsHexDigit(s[|r|])
    decreases |s|
  {
    if s != [] && IsHexDigit(s[0]) then [s[0]] + DigitRun(s[1..]) else ""
  }

  /** The value of a string of hexadecimal digits, most significant first. */
  function DigitsValue(digits: string): nat
    requires forall i :: 0 <= i < |digits| ==> IsHexDigit(digits[i])
    decreases |digits|
  {
    if digits == [] then 0
    else
      assert IsHexDigit(digits[|digits| - 1]);
      16 * DigitsValue(digits[..|digits| - 1]) + DigitValue(digits[|digits| - 1]).value
  }

  /** Drops one leading sign character, if any. */
  function Unsigned(t: string): string {
    if t != [] && (t[0] == '-' || t[0] == '+') then t[1..] else t
  }

  /** Drops a leading `0x` or `0X`, as `parseInt` does for radix 16. */
  function WithoutHexPrefix(u: string): string {
    if |u| >= 2 && u[0] == '0' && (u[1] == 'x' || u[1] == 'X') then u[2..] else u
  }

  /** `parseInt(s, 16)`, with `None` for NaN. */
  function ParseHex(s: string): Option<int> {
    var t := TrimStart(s);
    var digits := DigitRun(WithoutHexPrefix(Unsigned(t)));
    if digits == [] then None
    else if t[0] == '-' then Some(-(DigitsValue(digits) as int))
    else Some(DigitsValue(digits) as int)
  }

  /** `hexToRgb(hex)`. */
  function HexToRgb(hex: string): Rgb {
    Rgb(ParseHex(Substr(hex, 1, 2)), ParseHex(Substr(hex, 3, 2)), ParseHex(Substr(hex, 5, 2)))
  }

  /** The editor's colour guard `/^#[0-9A-F]{6}$/i`. */
  predicate IsHexColor(s: string) {
    |s| == 7 && s[0] == '#' && forall i :: 1 <= i < 7 ==> IsHexDigit(s[i])
  }

  /** The value of the two digits at `s[k]`, `s[k + 1]`. */
  function PairValue(s: string, k: nat): nat
    requires k + 1 < |s| && IsHexDigit(s[k]) && IsHexDigit(s[k + 1])
  {
    16 * DigitValue(s[k]).value + DigitValue(s[k + 1]).value
  }

  lemma DigitNotSpace(c: char)
    requires IsHexDigit(c)
    ensures !IsSpace(c) && c != '-' && c != '+' && c != 'x' && c != 'X'
  {
  }

  /** `parseInt` of two hexadecimal digits is their value. */
  lemma ParseTwoDigits(chunk: string)
    requires |chunk| == 2 && IsHexDigit(chunk[0]) && IsHexDigit(chunk[1])
    ensures ParseHex(chunk) == Some(16 * DigitValue(chunk[0]).value + DigitValue(chunk[1]).value)
  {
    DigitNotSpace(chunk[0]);
    DigitNotSpace(chunk[1]);
    assert TrimStart(chunk) == chunk;
    assert DigitRun(chunk[1..][1..]) == "";
    assert DigitRun(chunk[1..]) == chunk[1..];
    assert DigitRun(chunk) == chunk;
    assert chunk[..1] == [chunk[0]];
    assert DigitsValue([chunk[0]]) == 16 * DigitsValue([]) + DigitValue(chunk[0]).value;
  }

  lemma ParsePair(s: string, k: nat)
    requires k + 1 < |s| && IsHexDigit(s[k]) && IsHexDigit(s[k + 1])
    ensures ParseHex(Substr(s, k, 2)) == Some(PairValue(s, k))
    ensures 0 <= PairValue(s, k) <= 255
  {
    var chunk := Substr(s, k, 2);
    assert chunk == s[k..k + 2];
    assert chunk[0] == s[k] && chunk[1] == s[k + 1];
    ParseTwoDigits(chunk);
  }

  /** For a guarded colour `#RRGGBB`, every component is the value of its digit
      pair, between 0 and 255. */
  lemma HexToRgbOfHexColor(s: string)
    requires IsHexColor(s)
    ensures HexToRgb(s) == Rgb(Some(PairValue(s, 1)), Some(PairValue(s, 3)), Some(PairValue(s, 5)))
    ensures 0 <= PairValue(s, 1) <= 255 && 0 <= PairValue(s, 3) <= 255 && 0 <= PairValue(s, 5) <= 255
  {
    assert IsHexDigit(s[1]) && IsHexDigit(s[2]) && IsHexDigit(s[3]);
    assert IsHexDigit(s[4]) && IsHexDigit(s[5]) && IsHexDigit(s[6]);
    assert HexToRgb(s).r == Some(PairValue(s, 1)) by { ParsePair(s, 1); }
    assert HexToRgb(s).g == Some(PairValue(s, 3)) by { ParsePair(s, 3); }
    assert HexToRgb(s).b == Some(PairValue(s, 5)) by { ParsePair(s, 5); }
  }

  /** Parsing is lenient: a chunk made of a sign and one digit is read as a
      signed number, so `#-1-1-1` yields (-1, -1, -1) although it is no colour. */
  lemma SignedChunksParse()
    ensures !IsHexColor("#-1-1-1")
    ensures HexToRgb("#-1-1-1") == Rgb(Some(-1), Some(-1), Some(-1))
  {
    assert Substr("#-1-1-1", 1, 2) == "-1";
    assert Substr("#-1-1-1", 3, 2) == "-1";
    assert Substr("#-1-1-1", 5, 2) == "-1";
    assert !IsSpace('-');
    assert TrimStart("-1") == "-1";
    assert "-1"[1..] == "1";
    assert DigitRun("1"[1..]) == "";
    assert DigitRun("1") == "1";
    assert "1"[..0] == "";
    assert DigitsValue("1") == 16 * DigitsValue("") + 1;
  }

  /** The lower-case hexadecimal digit for 0..15. */
  function HexChar(d: nat): char
    requires d < 16
  {
    if d < 10 then ('0' as nat + d) as char else ('a' as nat + d - 10) as char
  }

  /** `#rrggbb` for three components in 0..255: the partner of `HexToRgb`. */
  function FormatHex(r: nat, g: nat, b: nat): (s: string)
    requires r < 256 && g < 256 && b < 256
    ensures IsHexColor(s)
  {
    ['#', HexChar(r / 16), HexChar(r % 16), HexChar(g / 16), HexChar(g % 16), HexChar(b / 16), HexChar(b % 16)]
  }

  /** A digit produced by `HexChar` reads back as its value. */
  lemma HexCharValue(d: nat)
    requires d < 16
    ensures DigitValue(HexChar(d)) == Some(d)
  {
  }

  /** Splitting `16 * hi + lo` back into its two digits. */
  lemma DigitPair(hi: nat, lo: nat)
    requires hi < 16 && lo < 16
    ensures (16 * hi + lo) / 16 == hi && (16 * hi + lo) % 16 == lo
  {
  }

  /** Formatting a colour and reading it back gives the same components. */
  lemma RoundTrip(r: nat, g: nat, b: nat)
    requires r < 256 && g < 256 && b < 256
    ensures HexToRgb(FormatHex(r, g, b)) == Rgb(Some(r), Some(g), Some(b))
  {
    var s := FormatHex(r, g, b);
    HexCharValue(r / 16);
    HexCharValue(r % 16);
    HexCharValue(g / 16);
    HexCharValue(g % 16);
    HexCharValue(b / 16);
    HexCharValue(b % 16);
    assert PairValue(s, 1) == r;
    assert PairValue(s, 3) == g;
    assert PairValue(s, 5) == b;
    HexToRgbOfHexColor(s);
  }

  /** A hexadecimal digit in lower case. */
  function LowerDigit(c: char): char {
    if 'A' <= c <= 'F' then (c as int + 32) as char else c
  }

  /** A guarded colour with its letters in lower case. */
  function LowerHex(s: string): string
    requires IsHexColor(s)
  {
    [s[0], LowerDigit(s[1]), LowerDigit(s[2]), LowerDigit(s[3]), LowerDigit(s[4]), LowerDigit(s[5]), LowerDigit(s[6])]
  }

  /** Formatting the value of a digit gives the digit in lower case. */
  lemma HexCharOfDigit(c: char)
    requires IsHexDigit(c)
    ensures HexChar(DigitValue(c).value) == LowerDigit(c)
  {
  }

  /** The two digits of a pair, recovered from its value. */
  lemma PairDigits(s: string, k: nat)
    requires k + 1 < |s| && IsHexDigit(s[k]) && IsHexDigit(s[k + 1])
    ensures HexChar(PairValue(s, k) / 16) == LowerDigit(s[k])
    ensures HexChar(PairValue(s, k) % 16) == LowerDigit(s[k + 1])
  {
    DigitPair(DigitValue(s[k]).value, DigitValue(s[k + 1]).value);
    HexCharOfDigit(s[k]);
    HexCharOfDigit(s[k + 1]);
  }

  /** Reading a guarded colour and formatting it again gives the colour in
      lower case. */
  lemma FormatOfParse(s: string)
    requires IsHexColor(s)
    ensures FormatHex(PairValue(s, 1), PairValue(s, 3), PairValue(s, 5)) == LowerHex(s)
  {
    assert IsHexDigit(s[1]) && IsHexDigit(s[2]) && IsHexDigit(s[3]);
    assert IsHexDigit(s[4]) && IsHexDigit(s[5]) && IsHexDigit(s[6]);
    HexToRgbOfHexColor(s);
    PairDigits(s, 1);
    PairDigits(s, 3);
    PairDigits(s, 5);
  }
}
