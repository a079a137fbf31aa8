/** `Colour` (the older `Utils` package copy): the same byte layout as the
    newer copy, without the opacity and transparency helpers. */
module LegacyColour {
  import HexFormat
  import Current = Colour

  const RShift: bv32 := 0
  const GShift: bv32 := 8
  const BShift: bv32 := 16
  const AShift: bv32 := 24

  const Red: bv32 := 0xFF << RShift
  const Green: bv32 := 0xFF << GShift
  const Blue: bv32 := 0xFF << BShift

  const Opaque: bv8 := 255
  const Transparent: bv8 := 0

  /** The component initialiser stores its four bytes unchanged. */
  datatype Colour = Colour(red: bv8, green: bv8, blue: bv8, alpha: bv8)

  /** The component initialiser with the default (opaque) alpha. */
  function FromBytes(red: bv8, green: bv8, blue: bv8, alpha: bv8 := Opaque): (c: Colour)
    ensures Value(c) >> 24 == alpha as bv32
    ensures Value(c) & 0xFF_FFFF == (red as bv32) | ((green as bv32) << 8) | ((blue as bv32) << 16)
  {
    Colour(red, green, blue, alpha)
  }

  /** `value`: red, green, blue and alpha at bit offsets 0, 8, 16 and 24. */
  function Value(c: Colour): (v: bv32)
    ensures v & 0xFF == c.red as bv32 && (v >> 8) & 0xFF == c.green as bv32
    ensures (v >> 16) & 0xFF == c.blue as bv32 && v >> 24 == c.alpha as bv32
  {
    ((c.red as bv32) << RShift) | ((c.green as bv32) << GShift) | ((c.blue as bv32) << BShift)
    | ((c.alpha as bv32) << AShift)
  }

  /** The `Int` initialiser; `UInt8(x)` traps outside 0...255. */
  function FromInts(red: int, green: int, blue: int, alpha: int := Opaque as int): (c: Colour)
    requires 0 <= red < 256 && 0 <= green < 256 && 0 <= blue < 256 && 0 <= alpha < 256
    ensures c.red as int == red && c.green as int == green && c.blue as int == blue && c.alpha as int == alpha
  {
    Colour(Current.ToByte(red), Current.ToByte(green), Current.ToByte(blue), Current.ToByte(alpha))
  }

  /** The `UInt32` initialiser: bytes 0 to 2 of `rgb`; alpha defaults to
      opaque. */
  function FromValue(rgb: bv32, alpha: bv8 := Opaque): (c: Colour)
    ensures Value(c) == (rgb & 0xFF_FFFF) | ((alpha as bv32) << 24)
  {
    Colour(((rgb >> RShift) & 0xFF) as bv8, ((rgb >> GShift) & 0xFF) as bv8,
           ((rgb >> BShift) & 0xFF) as bv8, alpha)
  }

  /** `hex`: the `%02X` form of `value`. */
  function Hex(c: Colour): (s: string)
    ensures 2 <= |s| <= 8
    ensures forall i :: 0 <= i < |s| ==> HexFormat.IsUpperHexDigit(s[i])
    ensures HexFormat.ParseHex(s) == Value(c) as int
    ensures |s| == 2 || s[0] != '0'
  {
    HexFormat.Format32(Value(c) as int)
  }

  // ---------------------------------------------------------------------------
  // Properties

  /** The masks are the three low bytes, pairwise disjoint. */
  lemma MasksDisjoint()
    ensures Red == 0xFF && Green == 0xFF00 && Blue == 0xFF_0000
    ensures Red & Green == 0 && Red & Blue == 0 && Green & Blue == 0
  {
  }

  /** Unpacking `value` with the colour's alpha gives the colour back. */
  lemma ValueRoundTrip(c: Colour)
    ensures FromValue(Value(c), c.alpha) == c
  {
  }

  /** The one-argument `UInt32` initialiser is opaque and ignores the top
      byte of its argument. */
  lemma FromValueDefaultsOpaque(rgb: bv32, other: bv32)
    requires rgb & 0xFF_FFFF == other & 0xFF_FFFF
    ensures FromValue(rgb).alpha == Opaque
    ensures FromValue(rgb) == FromValue(other)
  {
  }

  /** The two copies pack a colour identically and format it identically. */
  lemma AgreesWithCurrent(c: Colour)
    ensures var n := Current.Colour(c.red, c.green, c.blue, c.alpha);
            Value(c) == Current.Value(n) && Hex(c) == Current.Hex(n)
  {
  }
}
