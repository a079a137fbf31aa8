/** `ColourFilters`: functions on a packed colour value (red in byte 0, green
    in byte 1, blue in byte 2, alpha in byte 3). A filter is named by three
    letters, one per colour channel in the order red, green, blue: the
    channel's own letter keeps it, `X` sets it to full (0xFF) and `O` clears
    it. A filter with an `O` masks the value and so also clears the alpha
    byte; one without keeps alpha. `Reference` states that reading of a name,
    and every filter is proved equal to the reading of its own name except
    `RXO` and `ROX`, whose bodies do something else (see `RXOAsWritten`,
    `ROXAsWritten`). */
module ColourFilters {
  import LegacyColour

  const R: bv32 := LegacyColour.Red
  const G: bv32 := LegacyColour.Green
  const B: bv32 := LegacyColour.Blue

  /** What a name letter does to its channel byte. */
  datatype ChannelAction = Keep | Full | Clear

  function Channel(a: ChannelAction, byte: bv8): bv8 {
    match a
    case Keep => byte
    case Full => 0xFF
    case Clear => 0
  }

  /** The filter a three-letter name describes, on the colour that `v`
      packs: each channel byte as its letter says, and alpha kept only when
      no letter clears. */
  function Reference(red: ChannelAction, green: ChannelAction, blue: ChannelAction, v: bv32): bv32 {
    LegacyColour.Value(Filtered(red, green, blue, v))
  }

  /** The colour `v` packs (its top byte as alpha), with each channel byte
      as its letter says and alpha kept only when no letter clears. */
  function Filtered(red: ChannelAction, green: ChannelAction, blue: ChannelAction, v: bv32): LegacyColour.Colour {
    var keepsAlpha := red != Clear && green != Clear && blue != Clear;
    LegacyColour.Colour(Channel(red, (v & 0xFF) as bv8), Channel(green, ((v >> 8) & 0xFF) as bv8),
                        Channel(blue, ((v >> 16) & 0xFF) as bv8), if keepsAlpha then (v >> 24) as bv8 else 0)
  }

  /** Applying the filter a name describes twice is applying it once. */
  lemma ReferenceIdempotent(red: ChannelAction, green: ChannelAction, blue: ChannelAction, v: bv32)
    ensures Reference(red, green, blue, Reference(red, green, blue, v)) == Reference(red, green, blue, v)
  {
    var d := Filtered(red, green, blue, v);
    Unpack(d);
    ChannelIdempotent(red, d.red);
    ChannelIdempotent(green, d.green);
    ChannelIdempotent(blue, d.blue);
    assert Filtered(red, green, blue, LegacyColour.Value(d)) == d;
  }

  lemma ChannelIdempotent(a: ChannelAction, byte: bv8)
    ensures Channel(a, Channel(a, byte)) == Channel(a, byte)
  {
  }

  /** The bytes of a packed colour, read back. */
  lemma Unpack(d: LegacyColour.Colour)
    ensures var w := LegacyColour.Value(d);
            && (w & 0xFF) as bv8 == d.red && ((w >> 8) & 0xFF) as bv8 == d.green
            && ((w >> 16) & 0xFF) as bv8 == d.blue && (w >> 24) as bv8 == d.alpha
  {
  }

  // ---------------------------------------------------------------------------
  // The filters

  function RGB(v: bv32): (r: bv32) ensures r == v && r == Reference(Keep, Keep, Keep, v) { v }
  function RGX(v: bv32): (r: bv32) ensures r == Reference(Keep, Keep, Full, v) { v | B }
  function RGO(v: bv32): (r: bv32) ensures r == Reference(Keep, Keep, Clear, v) { v & (R | G) }
  function RXB(v: bv32): (r: bv32) ensures r == Reference(Keep, Full, Keep, v) { v | G }
  function RXX(v: bv32): (r: bv32) ensures r == Reference(Keep, Full, Full, v) { v | (G | B) }
  function ROB(v: bv32): (r: bv32) ensures r == Reference(Keep, Clear, Keep, v) { v & (R | B) }
  function ROO(v: bv32): (r: bv32) ensures r == Reference(Keep, Clear, Clear, v) { v & R }
  function XGB(v: bv32): (r: bv32) ensures r == Reference(Full, Keep, Keep, v) { v | R }
  function XGX(v: bv32): (r: bv32) ensures r == Reference(Full, Keep, Full, v) { v | (R | B) }
  function XGO(v: bv32): (r: bv32) ensures r == Reference(Full, Keep, Clear, v) { (v | R) & (R | G) }
  function XXB(v: bv32): (r: bv32) ensures r == Reference(Full, Full, Keep, v) { v | (R | G) }
  function XXX(v: bv32): (r: bv32) ensures r == Reference(Full, Full, Full, v) { v | (R | G | B) }
  function XXO(v: bv32): (r: bv32) ensures r == Reference(Full, Full, Clear, v) { (v | (R | G)) & (R | G) }
  function XOB(v: bv32): (r: bv32) ensures r == Reference(Full, Clear, Keep, v) { (v | R) & (R | B) }
  function XOX(v: bv32): (r: bv32) ensures r == Reference(Full, Clear, Full, v) { (v | (R | B)) & (R | B) }
  function XOO(v: bv32): (r: bv32) ensures r == Reference(Full, Clear, Clear, v) { (v | R) & R }
  function OGB(v: bv32): (r: bv32) ensures r == Reference(Clear, Keep, Keep, v) { v & (G | B) }
  function OGX(v: bv32): (r: bv32) ensures r == Reference(Clear, Keep, Full, v) { (v & (G | B)) | B }
  function OGO(v: bv32): (r: bv32) ensures r == Reference(Clear, Keep, Clear, v) { v & G }
  function OXB(v: bv32): (r: bv32) ensures r == Reference(Clear, Full, Keep, v) { (v & (G | B)) | G }
  function OXX(v: bv32): (r: bv32) ensures r == Reference(Clear, Full, Full, v) { (v & (G | B)) | (G | B) }
  function OXO(v: bv32): (r: bv32) ensures r == Reference(Clear, Full, Clear, v) { (v & G) | G }
  function OOB(v: bv32): (r: bv32) ensures r == Reference(Clear, Clear, Keep, v) { v & B }
  function OOX(v: bv32): (r: bv32) ensures r == Reference(Clear, Clear, Full, v) { (v & B) | B }
  function OOO(v: bv32): (r: bv32) ensures r == 0 && r == Reference(Clear, Clear, Clear, v) { v & 0x000000 }

  /** `RXO` as written: the same mask as `RGO`, so green is kept, not set to
      full. */
  function RXOAsWritten(v: bv32): (r: bv32)
    ensures r == Reference(Keep, Keep, Clear, v)
  {
    v & (R | G)
  }

  /** `RXO` as its name reads: red kept, green full, blue and alpha cleared,
      built like `OXO` and `XGO`. */
  function RXO(v: bv32): (r: bv32)
    ensures r == Reference(Keep, Full, Clear, v)
  {
    (v & R) | G
  }

  /** `ROX` as written: masks with red and blue and then with blue alone, so
      red is cleared and blue kept (the same as `OOB`). */
  function ROXAsWritten(v: bv32): (r: bv32)
    ensures r == Reference(Clear, Clear, Keep, v)
  {
    (v & (R | B)) & B
  }

  /** `ROX` as its name reads: red kept, green cleared, blue full, built like
      `OGX`. */
  function ROX(v: bv32): (r: bv32)
    ensures r == Reference(Keep, Clear, Full, v)
  {
    (v & (R | B)) | B
  }

  /** The identity filter. */
  function None(v: bv32): (r: bv32) ensures r == v { v }

  // The named aliases.
  function Reds(v: bv32): (r: bv32) ensures r == Reference(Keep, Clear, Clear, v) { ROO(v) }
  function Redish(v: bv32): (r: bv32) ensures r == Reference(Full, Keep, Keep, v) { XGB(v) }
  function Redless(v: bv32): (r: bv32) ensures r == Reference(Clear, Keep, Keep, v) { OGB(v) }
  function Greens(v: bv32): (r: bv32) ensures r == Reference(Clear, Keep, Clear, v) { OGO(v) }
  function Greenish(v: bv32): (r: bv32) ensures r == Reference(Keep, Full, Keep, v) { RXB(v) }
  function Greenless(v: bv32): (r: bv32) ensures r == Reference(Keep, Clear, Keep, v) { ROB(v) }
  function Blues(v: bv32): (r: bv32) ensures r == Reference(Clear, Clear, Keep, v) { OOB(v) }
  function Bluish(v: bv32): (r: bv32) ensures r == Reference(Keep, Keep, Full, v) { RGX(v) }
  function Blueish(v: bv32): (r: bv32) ensures r == Reference(Keep, Keep, Full, v) { RGX(v) }
  function Blueless(v: bv32): (r: bv32) ensures r == Reference(Keep, Keep, Clear, v) { RGO(v) }

  // ---------------------------------------------------------------------------
  // Properties

  /** The filters by name: the filter whose three letters are the given
      channel actions (with `RXO` and `ROX` as their names read). */
  function Named(red: ChannelAction, green: ChannelAction, blue: ChannelAction, v: bv32): (r: bv32)
    ensures r == Reference(red, green, blue, v)
  {
    match (red, green, blue)
    case (Keep, Keep, Keep) => RGB(v)
    case (Keep, Keep, Full) => RGX(v)
    case (Keep, Keep, Clear) => RGO(v)
    case (Keep, Full, Keep) => RXB(v)
    case (Keep, Full, Full) => RXX(v)
    case (Keep, Full, Clear) => RXO(v)
    case (Keep, Clear, Keep) => ROB(v)
    case (Keep, Clear, Full) => ROX(v)
    case (Keep, Clear, Clear) => ROO(v)
    case (Full, Keep, Keep) => XGB(v)
    case (Full, Keep, Full) => XGX(v)
    case (Full, Keep, Clear) => XGO(v)
    case (Full, Full, Keep) => XXB(v)
    case (Full, Full, Full) => XXX(v)
    case (Full, Full, Clear) => XXO(v)
    case (Full, Clear, Keep) => XOB(v)
    case (Full, Clear, Full) => XOX(v)
    case (Full, Clear, Clear) => XOO(v)
    case (Clear, Keep, Keep) => OGB(v)
    case (Clear, Keep, Full) => OGX(v)
    case (Clear, Keep, Clear) => OGO(v)
    case (Clear, Full, Keep) => OXB(v)
    case (Clear, Full, Full) => OXX(v)
    case (Clear, Full, Clear) => OXO(v)
    case (Clear, Clear, Keep) => OOB(v)
    case (Clear, Clear, Full) => OOX(v)
    case (Clear, Clear, Clear) => OOO(v)
  }

  /** Every filter is idempotent. */
  lemma NamedIdempotent(red: ChannelAction, green: ChannelAction, blue: ChannelAction, v: bv32)
    ensures Named(red, green, blue, Named(red, green, blue, v)) == Named(red, green, blue, v)
  {
    ReferenceIdempotent(red, green, blue, v);
  }

  /** So are the two misnamed filters as written. */
  lemma AsWrittenIdempotent(v: bv32)
    ensures RXOAsWritten(RXOAsWritten(v)) == RXOAsWritten(v)
    ensures ROXAsWritten(ROXAsWritten(v)) == ROXAsWritten(v)
  {
    ReferenceIdempotent(Keep, Keep, Clear, v);
    ReferenceIdempotent(Clear, Clear, Keep, v);
  }

  /** A filter that keeps no channel and clears at least one (so alpha is
      cleared too) ignores its input. */
  lemma NamedConstant(red: ChannelAction, green: ChannelAction, blue: ChannelAction, v: bv32, w: bv32)
    requires red != Keep && green != Keep && blue != Keep
    requires red == Clear || green == Clear || blue == Clear
    ensures Named(red, green, blue, v) == Named(red, green, blue, w)
  {
    assert Filtered(red, green, blue, v) == Filtered(red, green, blue, w);
  }

  /** The constants themselves: black with no alpha, and the single and
      paired channel masks. */
  lemma ConstantFilters(v: bv32)
    ensures OOO(v) == 0 && XOO(v) == R && OXO(v) == G && OOX(v) == B
  {
    assert XOO(v) == (v | R) & R;
    assert OXO(v) == (v & G) | G;
    assert OOX(v) == (v & B) | B;
  }

  lemma ConstantPairFilters(v: bv32)
    ensures XXO(v) == R | G && XOX(v) == R | B && OXX(v) == G | B
  {
  }

  /** The alpha byte survives exactly the filters whose name has no `O`;
      the others clear it. */
  lemma ReferenceAlpha(red: ChannelAction, green: ChannelAction, blue: ChannelAction, v: bv32)
    ensures Reference(red, green, blue, v) >> 24
            == (if red != Clear && green != Clear && blue != Clear then v >> 24 else 0)
  {
    var d := Filtered(red, green, blue, v);
    assert LegacyColour.Value(d) >> 24 == d.alpha as bv32;
  }

  /** Each colour byte of a filtered value is what its letter says of the
      same byte of the input, independently of the other letters. */
  lemma ReferenceRed(red: ChannelAction, green: ChannelAction, blue: ChannelAction, v: bv32)
    ensures Reference(red, green, blue, v) & 0xFF == Channel(red, (v & 0xFF) as bv8) as bv32
  {
    var d := Filtered(red, green, blue, v);
    assert LegacyColour.Value(d) & 0xFF == d.red as bv32;
  }

  lemma ReferenceGreen(red: ChannelAction, green: ChannelAction, blue: ChannelAction, v: bv32)
    ensures (Reference(red, green, blue, v) >> 8) & 0xFF == Channel(green, ((v >> 8) & 0xFF) as bv8) as bv32
  {
    var d := Filtered(red, green, blue, v);
    assert (LegacyColour.Value(d) >> 8) & 0xFF == d.green as bv32;
  }

  lemma ReferenceBlue(red: ChannelAction, green: ChannelAction, blue: ChannelAction, v: bv32)
    ensures (Reference(red, green, blue, v) >> 16) & 0xFF == Channel(blue, ((v >> 16) & 0xFF) as bv8) as bv32
  {
    var d := Filtered(red, green, blue, v);
    assert (LegacyColour.Value(d) >> 16) & 0xFF == d.blue as bv32;
  }

  /** The two filters whose bodies disagree with their names equal other
      filters for every input, and differ from their names on the value 0. */
  lemma MisnamedFilters(v: bv32)
    ensures RXOAsWritten(v) == RGO(v) && ROXAsWritten(v) == OOB(v)
    ensures RXOAsWritten(0) == 0 && RXO(0) == G
    ensures ROXAsWritten(0) == 0 && ROX(0) == B
  {
  }

  /** The aliases are their targets; `None` and `RGB` are the identity. */
  lemma Aliases(v: bv32)
    ensures Reds(v) == ROO(v) && Redish(v) == XGB(v) && Redless(v) == OGB(v)
    ensures Greens(v) == OGO(v) && Greenish(v) == RXB(v) && Greenless(v) == ROB(v)
    ensures Blues(v) == OOB(v) && Bluish(v) == Blueish(v) == RGX(v) && Blueless(v) == RGO(v)
    ensures None(v) == RGB(v) == v
  {
  }
}
