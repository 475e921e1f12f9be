/**
 * Colour strings as the store and the vibe derivations handle them: `hexToRgb`
 * parses a `#rrggbb` string with `parseInt(hex.slice(1), 16)` and extracts the
 * three bytes with shifts and masks, and `rgbToHex` clamps, rounds and prints
 * three channels as two lower-case hex digits each (the hex notation of
 * section 5.2 of CSS Color Module Level 4).
 */
module Colour {
  import opened Wrappers

  /** Three channels as `hexToRgb` returns them. */
  datatype Rgb = Rgb(r: int, g: int, b: int)

  predicate IsHexDigit(c: char) {
    '0' <= c <= '9' || 'a' <= c <= 'f' || 'A' <= c <= 'F'
  }

  predicate IsLowerHexDigit(c: char) {
    '0' <= c <= '9' || 'a' <= c <= 'f'
  }

  /** A seven-character colour `#rrggbb`, digits in either case. */
  predicate IsHexColour(s: string) {
    |s| == 7 && s[0] == '#' && forall i :: 1 <= i < 7 ==> IsHexDigit(s[i])
  }

  /** A seven-character colour `#rrggbb` with lower-case digits only. */
  predicate IsLowerHexColour(s: string) {
    |s| == 7 && s[0] == '#' && forall i :: 1 <= i < 7 ==> IsLowerHexDigit(s[i])
  }

  function DigitValue(c: char): (d: nat)
    requires IsHexDigit(c)
    ensures d < 16
  {
    if '0' <= c <= '9' then c as int - '0' as int
    else if 'A' <= c <= 'F' then c as int - 'A' as int + 10
    else c as int - 'a' as int + 10
  }

  /** The lower-case digit `Number.prototype.toString(16)` prints for `d`. */
  function HexChar(d: nat): (c: char)
    requires d < 16
    ensures IsLowerHexDigit(c) && DigitValue(c) == d
  {
    if d < 10 then ('0' as int + d) as char else ('a' as int + d - 10) as char
  }

  function LowerChar(c: char): char {
    if 'A' <= c <= 'Z' then (c as int + 32) as char else c
  }

  /** ASCII lower-casing, which is what `toLowerCase` does to a hex colour. */
  function LowerAscii(s: string): (t: string)
    ensures |t| == |s| && forall i :: 0 <= i < |s| ==> t[i] == LowerChar(s[i])
  {
    seq(|s|, i requires 0 <= i < |s| => LowerChar(s[i]))
  }

  // ---------------------------------------------------------------------------
  // parseInt(s, 16)
  // ---------------------------------------------------------------------------

  /** The code points `parseInt` skips before the number: ECMAScript's WhiteSpace and LineTerminator. */
  predicate IsJsSpace(c: char) {
    c == '\t' || c == '\n' || c == '\U{000B}' || c == '\U{000C}' || c == '\r' || c == ' '
    || c == '\U{00A0}' || c == '\U{1680}' || ('\U{2000}' <= c <= '\U{200A}')
    || c == '\U{2028}' || c == '\U{2029}' || c == '\U{202F}' || c == '\U{205F}'
    || c == '\U{3000}' || c == '\U{FEFF}'
  }

  function TrimStart(s: string): (t: string)
    ensures t == [] || !IsJsSpace(t[0])
  {
    if |s| > 0 && IsJsSpace(s[0]) then TrimStart(s[1..]) else s
  }

  /** Length of the longest prefix of `s` made of hex digits. */
  function HexPrefixLength(s: string): (n: nat)
    ensures n <= |s|
    ensures forall i :: 0 <= i < n ==> IsHexDigit(s[i])
    ensures n < |s| ==> !IsHexDigit(s[n])
  {
    if |s| > 0 && IsHexDigit(s[0]) then 1 + HexPrefixLength(s[1..]) else 0
  }

  predicate AllHexDigits(ds: string) {
    forall i :: 0 <= i < |ds| ==> IsHexDigit(ds[i])
  }

  /** The value of a string of hex digits, most significant first. */
  function DigitsValue(ds: string): nat
    requires AllHexDigits(ds)
  {
    if |ds| == 0 then 0 else 16 * DigitsValue(ds[..|ds| - 1]) + DigitValue(ds[|ds| - 1])
  }

  /**
   * `parseInt(s, 16)`: skip leading white space, take one optional sign, drop a
   * `0x`/`0X` prefix, then read the longest run of hex digits; no digits at all
   * gives `NaN`, written `None`.
   */
  function ParseIntHex(s: string): (r: Option<int>)
    ensures r.None? <==> HexPrefixLength(StripRadixPrefix(StripSign(TrimStart(s)))) == 0
  {
    var t := TrimStart(s);
    var w := StripRadixPrefix(StripSign(t));
    var k := HexPrefixLength(w);
    if k == 0 then None
    else if |t| > 0 && t[0] == '-' then Some(-(DigitsValue(w[..k]) as int))
    else Some(DigitsValue(w[..k]))
  }

  function StripSign(t: string): string {
    if |t| > 0 && (t[0] == '-' || t[0] == '+') then t[1..] else t
  }

  function StripRadixPrefix(u: string): string {
    if |u| >= 2 && u[0] == '0' && (u[1] == 'x' || u[1] == 'X') then u[2..] else u
  }

  /**
   * `hexToRgb`: `(n >> 16) & 255`, `(n >> 8) & 255` and `n & 255` of the parsed
   * number. The shifts act on the number modulo 2^32, which floor division and
   * a non-negative remainder reproduce for every integer; `NaN` becomes 0.
   */
  function HexToRgb(hex: string): (c: Rgb)
    ensures 0 <= c.r < 256 && 0 <= c.g < 256 && 0 <= c.b < 256
  {
    match ParseIntHex(if |hex| == 0 then "" else hex[1..])
    case None => Rgb(0, 0, 0)
    case Some(n) => Rgb((n / 65536) % 256, (n / 256) % 256, n % 256)
  }

  // ---------------------------------------------------------------------------
  // rgbToHex(r, g, b)
  // ---------------------------------------------------------------------------

  /** `Math.round`: the nearest integer, halves rounded up. */
  function RoundJs(x: real): (n: int)
    ensures x - 0.5 < n as real <= x + 0.5
  {
    (x + 0.5).Floor
  }

  /** `Math.max(0, Math.min(255, x))`. */
  function ClampChannel(x: real): (y: real)
    ensures 0.0 <= y <= 255.0
    ensures 0.0 <= x <= 255.0 ==> y == x
  {
    if 255.0 < x then 255.0 else if x < 0.0 then 0.0 else x
  }

  /** The byte a channel value becomes: clamped to [0, 255], then rounded. */
  function ChannelByte(x: real): (n: nat)
    ensures n < 256
    ensures 0.0 <= x <= 255.0 ==> x - 0.5 < n as real <= x + 0.5
  {
    RoundJs(ClampChannel(x))
  }

  /** `Number.prototype.toString(16)` for a non-negative integer. */
  function HexString(n: nat): (s: string)
    ensures 1 <= |s|
    ensures forall i :: 0 <= i < |s| ==> IsLowerHexDigit(s[i])
  {
    if n < 16 then [HexChar(n)] else HexString(n / 16) + [HexChar(n % 16)]
  }

  /** `padStart(2, "0")`. */
  function PadStart2(s: string): string {
    if |s| >= 2 then s else seq(2 - |s|, _ => '0') + s
  }

  function ChannelHex(x: real): string {
    PadStart2(HexString(ChannelByte(x)))
  }

  /** `rgbToHex`: always `#` and six lower-case hex digits, whatever the channels. */
  function RgbToHex(r: real, g: real, b: real): (s: string)
    ensures IsLowerHexColour(s)
    ensures s == "#" + ByteHex(ChannelByte(r)) + ByteHex(ChannelByte(g)) + ByteHex(ChannelByte(b))
  {
    ChannelHexIsByteHex(r);
    ChannelHexIsByteHex(g);
    ChannelHexIsByteHex(b);
    ByteDigitsColour(ByteHex(ChannelByte(r)), ByteHex(ChannelByte(g)), ByteHex(ChannelByte(b)));
    "#" + ChannelHex(r) + ChannelHex(g) + ChannelHex(b)
  }

  /** `#` followed by three two-digit lower-case pairs is a well-formed colour. */
  lemma ByteDigitsColour(x: string, y: string, z: string)
    requires |x| == 2 && IsLowerHexDigit(x[0]) && IsLowerHexDigit(x[1])
    requires |y| == 2 && IsLowerHexDigit(y[0]) && IsLowerHexDigit(y[1])
    requires |z| == 2 && IsLowerHexDigit(z[0]) && IsLowerHexDigit(z[1])
    ensures IsLowerHexColour("#" + x + y + z)
  {
    var s := "#" + x + y + z;
    assert s == ['#', x[0], x[1], y[0], y[1], z[0], z[1]];
  }

  /** The two digits of a byte, high nibble first. */
  function ByteHex(n: nat): (s: string)
    requires n < 256
    ensures |s| == 2 && IsLowerHexDigit(s[0]) && IsLowerHexDigit(s[1])
  {
    [HexChar(n / 16), HexChar(n % 16)]
  }

  /** `toString(16).padStart(2, "0")` prints every byte as exactly two digits. */
  lemma {:induction false} PaddedHexIsByteHex(n: nat)
    requires n < 256
    ensures PadStart2(HexString(n)) == ByteHex(n)
  {
    if n < 16 {
      assert HexString(n) == [HexChar(n)];
      assert n / 16 == 0 && n % 16 == n;
      assert HexChar(0) == '0';
    } else {
      assert HexString(n / 16) == [HexChar(n / 16)];
    }
  }

  lemma ChannelHexIsByteHex(x: real)
    ensures ChannelHex(x) == ByteHex(ChannelByte(x))
  {
    PaddedHexIsByteHex(ChannelByte(x));
  }

  // ---------------------------------------------------------------------------
  // Round trips
  // ---------------------------------------------------------------------------

  /** The byte written by the two hex digits at `s[i]` and `s[i + 1]`. */
  function ByteAt(s: string, i: nat): (n: nat)
    requires i + 1 < |s| && IsHexDigit(s[i]) && IsHexDigit(s[i + 1])
    ensures n < 256
  {
    16 * DigitValue(s[i]) + DigitValue(s[i + 1])
  }

  lemma HexDigitNotSpace(c: char)
    requires IsHexDigit(c)
    ensures !IsJsSpace(c) && c != '-' && c != '+'
  {
  }

  lemma {:induction false} SixDigitsValue(ds: string)
    requires |ds| == 6 && AllHexDigits(ds)
    ensures DigitsValue(ds) == ByteAt(ds, 0) * 65536 + ByteAt(ds, 2) * 256 + ByteAt(ds, 4)
  {
    var d := seq(6, i requires 0 <= i < 6 => DigitValue(ds[i]));
    assert DigitsValue(ds[..0]) == 0;
    assert ds[..1][..0] == ds[..0];
    assert DigitsValue(ds[..1]) == d[0];
    assert ds[..2][..1] == ds[..1];
    assert DigitsValue(ds[..2]) == 16 * d[0] + d[1];
    assert ds[..3][..2] == ds[..2];
    assert DigitsValue(ds[..3]) == 256 * d[0] + 16 * d[1] + d[2];
    assert ds[..4][..3] == ds[..3];
    assert DigitsValue(ds[..4]) == 4096 * d[0] + 256 * d[1] + 16 * d[2] + d[3];
    assert ds[..5][..4] == ds[..4];
    assert DigitsValue(ds[..5]) == 65536 * d[0] + 4096 * d[1] + 256 * d[2] + 16 * d[3] + d[4];
    assert ds[..6][..5] == ds[..5];
    assert ds[..6] == ds;
  }

  /** `parseInt` reads all six digits of a well-formed colour body. */
  lemma ParseSixDigits(s: string)
    requires |s| == 6 && AllHexDigits(s)
    ensures ParseIntHex(s) == Some(DigitsValue(s))
  {
    HexDigitNotSpace(s[0]);
    assert TrimStart(s) == s;
    assert StripSign(s) == s;
    assert StripRadixPrefix(s) == s by {
      assert IsHexDigit(s[1]);
    }
    var k := HexPrefixLength(s);
    assert k == 6;
    assert s[..6] == s;
  }

  /** The shifts and masks of `hexToRgb` undo `r * 65536 + g * 256 + b`. */
  lemma ExtractBytes(n: int, r: nat, g: nat, b: nat)
    requires r < 256 && g < 256 && b < 256
    requires n == r * 65536 + g * 256 + b
    ensures Rgb((n / 65536) % 256, (n / 256) % 256, n % 256) == Rgb(r, g, b)
  {
    assert n / 65536 == r;
    assert n / 256 == r * 256 + g;
  }

  /** On a well-formed `#rrggbb`, `hexToRgb` reads the three digit pairs. */
  lemma HexToRgbReadsPairs(h: string)
    requires IsHexColour(h)
    ensures HexToRgb(h) == Rgb(ByteAt(h, 1), ByteAt(h, 3), ByteAt(h, 5))
  {
    var s := h[1..];
    assert AllHexDigits(s);
    ParseSixDigits(s);
    var n := DigitsValue(s);
    SixDigitsValue(s);
    var r, g, b := ByteAt(s, 0), ByteAt(s, 2), ByteAt(s, 4);
    assert r == ByteAt(h, 1) && g == ByteAt(h, 3) && b == ByteAt(h, 5);
    ExtractBytes(n, r, g, b);
  }

  lemma HexCharOfDigit(c: char)
    requires IsHexDigit(c)
    ensures HexChar(DigitValue(c)) == LowerChar(c)
  {
  }

  /** Printing the byte two digits spell gives those digits back, lower-cased. */
  lemma PairRoundTrip(h: string, i: nat)
    requires i + 1 < |h| && IsHexDigit(h[i]) && IsHexDigit(h[i + 1])
    ensures ByteHex(ByteAt(h, i)) == [LowerChar(h[i]), LowerChar(h[i + 1])]
  {
    var n := ByteAt(h, i);
    assert n / 16 == DigitValue(h[i]) && n % 16 == DigitValue(h[i + 1]);
    HexCharOfDigit(h[i]);
    HexCharOfDigit(h[i + 1]);
  }

  /** Reading back the two digits `ByteHex` prints gives the byte. */
  lemma ByteHexRoundTrip(n: nat)
    requires n < 256
    ensures ByteAt(ByteHex(n), 0) == n
  {
  }

  /** A whole channel value in [0, 255] is printed as itself. */
  lemma ChannelByteOfByte(n: nat)
    requires n < 256
    ensures ChannelByte(n as real) == n
  {
  }

  /** `rgbToHex(...hexToRgb(h))` gives back `h` in lower case. */
  lemma HexRoundTrip(h: string)
    requires IsHexColour(h)
    ensures var c := HexToRgb(h); RgbToHex(c.r as real, c.g as real, c.b as real) == LowerAscii(h)
  {
    HexToRgbReadsPairs(h);
    var r, g, b := ByteAt(h, 1), ByteAt(h, 3), ByteAt(h, 5);
    ChannelByteOfByte(r);
    ChannelByteOfByte(g);
    ChannelByteOfByte(b);
    PairRoundTrip(h, 1);
    PairRoundTrip(h, 3);
    PairRoundTrip(h, 5);
    var printed := RgbToHex(r as real, g as real, b as real);
    assert printed == "#" + ByteHex(r) + ByteHex(g) + ByteHex(b);
    var lower := LowerAscii(h);
    assert lower[0] == '#';
    assert lower == "#" + [lower[1], lower[2]] + [lower[3], lower[4]] + [lower[5], lower[6]];
  }

  /** `hexToRgb(rgbToHex(r, g, b))` gives back the clamped, rounded channels. */
  lemma RgbRoundTrip(r: real, g: real, b: real)
    ensures HexToRgb(RgbToHex(r, g, b)) == Rgb(ChannelByte(r), ChannelByte(g), ChannelByte(b))
  {
    var x, y, z := ChannelByte(r), ChannelByte(g), ChannelByte(b);
    var s := RgbToHex(r, g, b);
    var hx, hy, hz := ByteHex(x), ByteHex(y), ByteHex(z);
    assert s == ['#', hx[0], hx[1], hy[0], hy[1], hz[0], hz[1]];
    HexToRgbReadsPairs(s);
    ByteHexRoundTrip(x);
    ByteHexRoundTrip(y);
    ByteHexRoundTrip(z);
  }
}
