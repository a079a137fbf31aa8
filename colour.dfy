/** `Colour` (the `Sources` copy): an immutable RGBA colour of four bytes,
    packed into a 32-bit value with red in the least significant byte, so
    that a native store of `value` on a little-endian host lays the bytes
    out as red, green, blue, alpha. */
module Colour {
  import opened Options
  import HexFormat
  import Memory

  const RShift: bv32 := 0
  const GShift: bv32 := 8
  const BShift: bv32 := 16
  const AShift: bv32 := 24

  const Red: bv32 := 0xFF << RShift
  const Green: bv32 := 0xFF << GShift
  const Blue: bv32 := 0xFF << BShift

  const Opaque: bv8 := 255
  const Transparent: bv8 := 0

  /** `init(_ red: UInt8, _ green: UInt8, _ blue: UInt8, alpha:)` is this
      constructor; `FromBytes` supplies the default alpha. */
  datatype Colour = Colour(red: bv8, green: bv8, blue: bv8, alpha: bv8)

  /** The component initialiser, whose alpha defaults to opaque. */
  function FromBytes(red: bv8, green: bv8, blue: bv8, alpha: bv8 := Opaque): (c: Colour)
    ensures Value(c) == (red as bv32) | ((green as bv32) << 8) | ((blue as bv32) << 16) | ((alpha as bv32) << 24)
  {
    Colour(red, green, blue, alpha)
  }

  /** `value`: the components at bit offsets 0, 8, 16 and 24. */
  function Value(c: Colour): (v: bv32)
    ensures v & 0xFF == c.red as bv32 && (v >> 8) & 0xFF == c.green as bv32
    ensures (v >> 16) & 0xFF == c.blue as bv32 && v >> 24 == c.alpha as bv32
  {
    ((c.red as bv32) << RShift) | ((c.green as bv32) << GShift) | ((c.blue as bv32) << BShift)
    | ((c.alpha as bv32) << AShift)
  }

  /** The `Int` initialiser: `UInt8(x)` traps outside 0...255, so every
      component must be a byte. */
  function FromInts(red: int, green: int, blue: int, alpha: int := Opaque as int): (c: Colour)
    requires 0 <= red < 256 && 0 <= green < 256 && 0 <= blue < 256 && 0 <= alpha < 256
    ensures c.red as int == red && c.green as int == green && c.blue as int == blue && c.alpha as int == alpha
  {
    Colour(ToByte(red), ToByte(green), ToByte(blue), ToByte(alpha))
  }

  /** `UInt8(x)` for an `x` in range, counted up from zero. */
  function ToByte(x: int): (b: bv8)
    requires 0 <= x < 256
    ensures b as int == x
  {
    if x == 0 then 0 else ToByte(x - 1) + 1
  }

  /** The `UInt32` initialiser: bytes 0 to 2 of `rgb`, and the given alpha. */
  function FromValue(rgb: bv32, alpha: bv8 := Opaque): (c: Colour)
    ensures Value(c) == (rgb & 0xFF_FFFF) | ((alpha as bv32) << 24)
  {
    Colour(((rgb >> RShift) & 0xFF) as bv8, ((rgb >> GShift) & 0xFF) as bv8,
           ((rgb >> BShift) & 0xFF) as bv8, alpha)
  }

  /** `hex`: the `%02X` form of `value`. */
  function Hex(c: Colour): (s: string)
    ensures 2 <= |s| <= 8
    ensures forall i :: 0 <= i < |s| ==> HexFormat.IsUpperHexDigit(s[i])
    ensures HexFormat.ParseHex(s) == Value(c) as int
    ensures |s| == 2 || s[0] != '0'
  {
    HexFormat.Format32(Value(c) as int)
  }

  /** `black`, the system black (all colour components zero, fully
      opaque) converted to bytes. */
  const Black: Colour := Colour(0, 0, 0, Opaque)

  /** `opacity(_: UInt8)`. */
  function Opacity(c: Colour, alpha: bv8): (r: Colour)
    ensures r.red == c.red && r.green == c.green && r.blue == c.blue && r.alpha == alpha
  {
    Colour(c.red, c.green, c.blue, alpha)
  }

  /** `opacity(_: Int)`: the argument clamped to 0...255 first. */
  function OpacityInt(c: Colour, alpha: int): (r: Colour)
    ensures r.red == c.red && r.green == c.green && r.blue == c.blue
    ensures 0 <= alpha < 256 ==> r.alpha as int == alpha
    ensures alpha < 0 ==> r.alpha == Transparent
    ensures 255 < alpha ==> r.alpha == Opaque
  {
    var clamped := if alpha < 0 then 0 else if alpha > 255 then 255 else alpha;
    Opacity(c, ToByte(clamped))
  }

  /** `transparency(_: UInt8)`: alpha becomes `255 - alpha` (never
      underflows). */
  function Transparency(c: Colour, alpha: bv8): (r: Colour)
    ensures r.red == c.red && r.green == c.green && r.blue == c.blue
    ensures r.alpha as int == 255 - alpha as int
  {
    Opacity(c, 255 - alpha)
  }

  // ---------------------------------------------------------------------------
  // Properties

  /** The three colour masks are the bytes at their shifts and pairwise
      disjoint; together with the alpha byte they cover the word. */
  lemma MasksDisjoint()
    ensures Red == 0xFF && Green == 0xFF00 && Blue == 0xFF_0000
    ensures Red & Green == 0 && Red & Blue == 0 && Green & Blue == 0
    ensures Red | Green | Blue | (0xFF << AShift) == 0xFFFF_FFFF
  {
  }

  /** Unpacking `value` with the colour's own alpha gives the colour back. */
  lemma ValueRoundTrip(c: Colour)
    ensures FromValue(Value(c), c.alpha) == c
  {
  }

  /** Packing an unpacked value restores it, except that the top byte is
      replaced by the alpha argument. */
  lemma FromValueRoundTrip(rgb: bv32, alpha: bv8)
    ensures Value(FromValue(rgb, alpha)) & 0xFF_FFFF == rgb & 0xFF_FFFF
    ensures Value(FromValue(rgb, alpha)) >> 24 == alpha as bv32
  {
  }

  /** The top byte of `rgb` is ignored. */
  lemma FromValueIgnoresTopByte(rgb: bv32, other: bv32, alpha: bv8)
    requires rgb & 0xFF_FFFF == other & 0xFF_FFFF
    ensures FromValue(rgb, alpha) == FromValue(other, alpha)
  {
  }

  /** `hex` is exactly the `%02X` string of `value`. */
  lemma HexIsFormat02X(c: Colour)
    ensures Hex(c) == HexFormat.Format02X(Value(c) as int)
  {
    HexFormat.Format02XCanonical(Hex(c), Value(c) as int);
  }

  /** `value` determines the colour. */
  lemma ValueInjective(c: Colour, d: Colour)
    ensures Value(c) == Value(d) <==> c == d
  {
  }

  /** So does `hex`. */
  lemma HexInjective(c: Colour, d: Colour)
    ensures Hex(c) == Hex(d) <==> c == d
  {
    if Hex(c) == Hex(d) {
      var n, m := Value(c) as int, Value(d) as int;
      assert n == m;
      assert Value(c) == n as bv32 && Value(d) == m as bv32;
      ValueInjective(c, d);
    }
  }

  /** Setting the opacity and then the transparency to the complement gives
      the same colour, and `Opacity` with the colour's own alpha changes
      nothing. */
  lemma OpacityTransparency(c: Colour, alpha: bv8)
    ensures Transparency(c, 255 - alpha) == Opacity(c, alpha)
    ensures Opacity(c, c.alpha) == c
  {
  }

  /** The integer `opacity` agrees with the byte one on every byte. */
  lemma OpacityIntOfByte(c: Colour, alpha: bv8)
    ensures OpacityInt(c, alpha as int) == Opacity(c, alpha)
  {
    var r := OpacityInt(c, alpha as int);
    assert r.alpha as int == alpha as int;
  }

  /** Changing the opacity is re-reading `value` with a new alpha: the
      colour bytes of `value` are kept and only alpha changes. */
  lemma OpacityKeepsColourBytes(c: Colour, alpha: bv8)
    ensures Opacity(c, alpha) == FromValue(Value(c), alpha)
  {
  }

  /** A fill with a colour's `value` in native order writes its bytes as red,
      green, blue, alpha. */
  lemma NativeLayout(c: Colour)
    ensures Memory.LittleEndianBytes(Value(c)) == [c.red, c.green, c.blue, c.alpha]
    ensures Memory.BigEndianBytes(Value(c)) == [c.alpha, c.blue, c.green, c.red]
  {
  }
}
