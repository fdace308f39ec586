/** The `Color` value type: four clamped channels, the brightness test and
    the contrast colour, and the hexadecimal projection. */
module ColorSpace {
  import opened JsCore

  /** Red, green and blue in [0, 255], alpha in [0, 1] once built by
      `NewColor` or changed by a setter. Channels are real numbers: the
      source does not round them. */
  datatype Color = Color(red: real, green: real, blue: real, alpha: real)

  ghost predicate Valid(c: Color) {
    0.0 <= c.red <= 255.0 && 0.0 <= c.green <= 255.0 && 0.0 <= c.blue <= 255.0 &&
    0.0 <= c.alpha <= 1.0
  }

  /** `clamp(min, max, x)` where `x` may be `undefined`: every comparison with
      `undefined` is false, so it is returned unchanged. */
  function ClampArg(lo: real, hi: real, x: Option<real>): (r: Option<real>)
    ensures r.Some? <==> x.Some?
    ensures x.Some? ==> r.value == Clamp(lo, hi, x.value)
  {
    match x
    case None => None
    case Some(v) => Some(Clamp(lo, hi, v))
  }

  /** `new Color(r, g, b, a)`: each channel is clamped and then defaulted
      with `|| 0` (channels) or `|| 1` (alpha), so a requested alpha of 0
      or below comes out as 1. */
  function NewColor(r: Option<real>, g: Option<real>, b: Option<real>, a: Option<real>): (c: Color)
    ensures Valid(c)
    ensures c.red == (if r.Some? then Clamp(0.0, 255.0, r.value) else 0.0)
    ensures c.green == (if g.Some? then Clamp(0.0, 255.0, g.value) else 0.0)
    ensures c.blue == (if b.Some? then Clamp(0.0, 255.0, b.value) else 0.0)
    ensures c.alpha == (if a.Some? && a.value > 0.0 then Clamp(0.0, 1.0, a.value) else 1.0)
    ensures a.Some? && a.value <= 0.0 ==> c.alpha == 1.0
  {
    Color(Or(ClampArg(0.0, 255.0, r), 0.0),
          Or(ClampArg(0.0, 255.0, g), 0.0),
          Or(ClampArg(0.0, 255.0, b), 0.0),
          Or(ClampArg(0.0, 1.0, a), 1.0))
  }

  function Rgb(r: real, g: real, b: real): Color {
    NewColor(Some(r), Some(g), Some(b), None)
  }

  // Setters: each clamps its channel and leaves the others alone. Note
  // that, unlike the constructor, the alpha setter keeps an alpha of 0.

  function WithRed(c: Color, red: real): (r: Color)
    ensures 0.0 <= r.red <= 255.0
    ensures 0.0 <= red <= 255.0 ==> r.red == red
    ensures r.green == c.green && r.blue == c.blue && r.alpha == c.alpha
    ensures Valid(c) ==> Valid(r)
  {
    c.(red := Clamp(0.0, 255.0, red))
  }

  function WithGreen(c: Color, green: real): (r: Color)
    ensures 0.0 <= r.green <= 255.0
    ensures 0.0 <= green <= 255.0 ==> r.green == green
    ensures r.red == c.red && r.blue == c.blue && r.alpha == c.alpha
    ensures Valid(c) ==> Valid(r)
  {
    c.(green := Clamp(0.0, 255.0, green))
  }

  function WithBlue(c: Color, blue: real): (r: Color)
    ensures 0.0 <= r.blue <= 255.0
    ensures 0.0 <= blue <= 255.0 ==> r.blue == blue
    ensures r.red == c.red && r.green == c.green && r.alpha == c.alpha
    ensures Valid(c) ==> Valid(r)
  {
    c.(blue := Clamp(0.0, 255.0, blue))
  }

  function WithAlpha(c: Color, alpha: real): (r: Color)
    ensures 0.0 <= r.alpha <= 1.0
    ensures 0.0 <= alpha <= 1.0 ==> r.alpha == alpha
    ensures r.red == c.red && r.green == c.green && r.blue == c.blue
    ensures Valid(c) ==> Valid(r)
  {
    c.(alpha := Clamp(0.0, 1.0, alpha))
  }

  // The frozen `Colors` table.
  const White: Color := Rgb(255.0, 255.0, 255.0)
  const Black: Color := Rgb(0.0, 0.0, 0.0)
  const Red: Color := Rgb(255.0, 0.0, 0.0)
  const Crimson: Color := Rgb(220.0, 20.0, 60.0)
  const DarkColor: Color := Rgb(36.0, 36.0, 36.0)
  const BrightColor: Color := Rgb(223.0, 223.0, 223.0)
  const Transparent: Color := NewColor(Some(255.0), Some(255.0), Some(255.0), Some(0.0))

  /** `Colors.TRANSPARENT` asks for alpha 0 and, through `|| 1`, is opaque white. */
  lemma TransparentIsOpaqueWhite()
    ensures Transparent == White && Transparent.alpha == 1.0
  {
  }

  /** Square of the Euclidean distance in RGB space (alpha is ignored).
      The source takes the square root; comparing squares decides the
      same questions. */
  function DistanceSq(c: Color, other: Color): (d: real)
    ensures d >= 0.0
    ensures c.red == other.red && c.green == other.green && c.blue == other.blue ==> d == 0.0
  {
    var dr := other.red - c.red;
    var dg := other.green - c.green;
    var db := other.blue - c.blue;
    SquareNonNeg(dr); SquareNonNeg(dg); SquareNonNeg(db);
    dr * dr + dg * dg + db * db
  }

  lemma SquareNonNeg(x: real)
    ensures x * x >= 0.0
  {
    if x < 0.0 {
      assert x * x == (-x) * (-x);
    }
  }

  /** Dark: strictly closer to black than to white. */
  predicate IsDark(c: Color) {
    DistanceSq(c, Black) < DistanceSq(c, White)
  }

  predicate IsBright(c: Color) {
    !IsDark(c)
  }

  /** Black for a bright colour, white for a dark one. */
  function Contrast(c: Color): (r: Color)
    ensures Valid(r) && r.alpha == 1.0
    ensures r == Black || r == White
  {
    if IsBright(c) then Black else White
  }

  /** Independent characterisation of the brightness test: a colour is dark
      exactly when its channel sum is below 3 * 255 / 2. A colour on the
      midpoint is bright, because the comparison is strict. */
  lemma {:induction false} DarkIffLowChannelSum(c: Color)
    ensures IsDark(c) <==> c.red + c.green + c.blue < 382.5
  {
    var r, g, b := c.red, c.green, c.blue;
    assert DistanceSq(c, Black) == r * r + g * g + b * b;
    assert DistanceSq(c, White) == (255.0 - r) * (255.0 - r) + (255.0 - g) * (255.0 - g) + (255.0 - b) * (255.0 - b);
    assert (255.0 - r) * (255.0 - r) == 65025.0 - 510.0 * r + r * r;
    assert (255.0 - g) * (255.0 - g) == 65025.0 - 510.0 * g + g * g;
    assert (255.0 - b) * (255.0 - b) == 65025.0 - 510.0 * b + b * b;
  }

  /** The contrast colour always has the opposite brightness. */
  lemma {:induction false} ContrastIsOpposite(c: Color)
    ensures IsBright(Contrast(c)) <==> IsDark(c)
    ensures IsDark(Contrast(c)) <==> IsBright(c)
  {
    DarkIffLowChannelSum(Black);
    DarkIffLowChannelSum(White);
  }

  // ---- asHEX ----

  const HexDigits: string := "0123456789abcdef"

  function HexDigit(d: int): (ch: char)
    requires 0 <= d < 16
  {
    HexDigits[d]
  }

  /** The value of a lower-case hexadecimal digit character. */
  function HexValue(ch: char): (v: int)
    ensures 0 <= v < 16
    ensures forall d :: 0 <= d < 16 && HexDigit(d) == ch ==> v == d
  {
    if '0' <= ch <= '9' then ch as int - '0' as int
    else if 'a' <= ch <= 'f' then ch as int - 'a' as int + 10
    else 0
  }

  /** `n.toString(16)` for a non-negative integer: the last digit is the
      value mod 16, and there is no leading zero except for 0 itself. */
  function ToHexString(n: nat): (s: string)
    ensures |s| >= 1
    ensures s[|s| - 1] == HexDigit(n % 16)
    ensures (s[0] == '0') <==> n == 0
    decreases n
  {
    if n < 16 then [HexDigit(n)] else ToHexString(n / 16) + [HexDigit(n % 16)]
  }

  predicate IsIntegral(x: real) {
    x.Floor as real == x
  }

  /** Channels are whole numbers, as for every colour the library itself builds. */
  ghost predicate WholeChannels(c: Color) {
    IsIntegral(c.red) && IsIntegral(c.green) && IsIntegral(c.blue)
  }

  /** Two-digit lower-case hexadecimal form of a byte. */
  function Hex2(x: int): (s: string)
    requires 0 <= x < 256
    ensures |s| == 2
  {
    [HexDigit(x / 16), HexDigit(x % 16)]
  }

  /** `asHEX`: `'#' + (0x1000000 + b + 0x100 * g + 0x10000 * r).toString(16).substr(1)`.
      The leading '1' of the 7-digit number is dropped, which zero-pads each
      channel to two digits. */
  function AsHex(c: Color): (s: string)
    requires Valid(c) && WholeChannels(c)
    ensures s == "#" + Hex2(c.red.Floor) + Hex2(c.green.Floor) + Hex2(c.blue.Floor)
  {
    var r, g, b := c.red.Floor, c.green.Floor, c.blue.Floor;
    HexOfPacked(r, g, b);
    "#" + ToHexString(0x1000000 + b + 0x100 * g + 0x10000 * r)[1..]
  }

  /** Appending one digit to a number at least 1 appends its character. */
  lemma ShiftDigit(n: nat, q: nat, d: nat)
    requires 1 <= q && d < 16 && n == 16 * q + d
    ensures ToHexString(n) == ToHexString(q) + [HexDigit(d)]
  {
    assert n / 16 == q && n % 16 == d;
  }

  /** Appending one byte appends its two-digit form. */
  lemma AppendByte(q: nat, x: int)
    requires 1 <= q && 0 <= x < 256
    ensures ToHexString(256 * q + x) == ToHexString(q) + Hex2(x)
  {
    var m := 16 * q + x / 16;
    ShiftDigit(m, q, x / 16);
    ShiftDigit(256 * q + x, m, x % 16);
    assert Hex2(x) == [HexDigit(x / 16)] + [HexDigit(x % 16)];
  }

  /** The digits of 1, r, g, b read as a base-256 number. */
  lemma DigitsOfBytes(r: int, g: int, b: int)
    requires 0 <= r < 256 && 0 <= g < 256 && 0 <= b < 256
    ensures ToHexString(256 * (256 * (256 + r) + g) + b) == ['1'] + Hex2(r) + Hex2(g) + Hex2(b)
  {
    DigitsOfTwoBytes(r, g);
    AppendByte(256 * (256 + r) + g, b);
  }

  lemma DigitsOfTwoBytes(r: int, g: int)
    requires 0 <= r < 256 && 0 <= g < 256
    ensures ToHexString(256 * (256 + r) + g) == ['1'] + Hex2(r) + Hex2(g)
  {
    DigitsOfOneByte(r);
    AppendByte(256 + r, g);
  }

  lemma DigitsOfOneByte(r: int)
    requires 0 <= r < 256
    ensures ToHexString(256 + r) == ['1'] + Hex2(r)
  {
    assert ToHexString(1) == ['1'];
    AppendByte(1, r);
  }

  lemma {:induction false} HexOfPacked(r: int, g: int, b: int)
    requires 0 <= r < 256 && 0 <= g < 256 && 0 <= b < 256
    ensures ToHexString(0x1000000 + b + 0x100 * g + 0x10000 * r) == ['1'] + Hex2(r) + Hex2(g) + Hex2(b)
  {
    var n := 0x1000000 + b + 0x100 * g + 0x10000 * r;
    PackedLayout(r, g, b);
    DigitsOfBytes(r, g, b);
    assert ToHexString(n) == ToHexString(256 * (256 * (256 + r) + g) + b);
  }

  /** The packed number is 1, r, g and b as four base-256 digits. */
  lemma PackedLayout(r: int, g: int, b: int)
    ensures 0x1000000 + b + 0x100 * g + 0x10000 * r == 256 * (256 * (256 + r) + g) + b
  {
  }

  /** Reading the six digits back gives the three channels: `asHEX` loses
      nothing for whole-number channels. */
  lemma {:induction false} AsHexRoundTrip(c: Color)
    requires Valid(c) && WholeChannels(c)
    ensures var s := AsHex(c);
      |s| == 7 && s[0] == '#' &&
      (HexValue(s[1]) * 16 + HexValue(s[2])) as real == c.red &&
      (HexValue(s[3]) * 16 + HexValue(s[4])) as real == c.green &&
      (HexValue(s[5]) * 16 + HexValue(s[6])) as real == c.blue
  {
    var s := AsHex(c);
    var r, g, b := c.red.Floor, c.green.Floor, c.blue.Floor;
    assert s[1] == HexDigit(r / 16) && s[2] == HexDigit(r % 16);
    assert s[3] == HexDigit(g / 16) && s[4] == HexDigit(g % 16);
    assert s[5] == HexDigit(b / 16) && s[6] == HexDigit(b % 16);
  }
}
