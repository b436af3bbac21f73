/**
 * Small helpers of the view: the year clamp, the chart unit and decimal choice for value labels,
 * the fallback section colour (a 31-multiplier hash of the section code, as an unsigned 32-bit
 * number, taken modulo the palette size) and the tooltip placement next to the pointer.
 */
module Extras {
  import opened Dataset

  const YearMin: real := 1995.0
  const YearMax: real := 2022.0
  const DefaultYear: real := 2022.0

  /**
   * `normalizeYear`: a non-numeric year becomes the default year, any other is clamped to the
   * supported range; a year already in range is kept.
   */
  function NormalizeYear(y: RawValue): (r: real)
    ensures YearMin <= r <= YearMax
    ensures y.Num? && YearMin <= y.x <= YearMax ==> r == y.x
    ensures y.Num? && y.x < YearMin ==> r == YearMin
    ensures y.Num? && y.x > YearMax ==> r == YearMax
    ensures y.NaN? ==> r == DefaultYear
  {
    if y.NaN? then DefaultYear
    else if y.x > YearMax then YearMax
    else if y.x < YearMin then YearMin
    else y.x
  }

  datatype ChartUnit = ChartUnit(unit: string, scale: real)

  /** The units a chart can use, each with the scale its letter stands for. */
  const ChartUnits: set<ChartUnit> := {
    ChartUnit("", 1.0), ChartUnit("K", 1000.0), ChartUnit("M", 1000000.0),
    ChartUnit("B", 1000000000.0), ChartUnit("T", 1000000000000.0) }

  /**
   * `selectChartUnit`: the largest of T, B, M and K whose scale does not exceed the maximum, or no
   * unit (scale 1) below a thousand, including a zero, negative or non-numeric maximum; so that a
   * maximum below 1e15 shows as a number below 1000 in that unit.
   */
  function SelectChartUnit(maxUsd: RawValue): (u: ChartUnit)
    ensures u in ChartUnits
    ensures Coerce(maxUsd) < 1000.0 ==> u == ChartUnit("", 1.0)
    ensures Coerce(maxUsd) >= 1.0 ==> u.scale <= Coerce(maxUsd)
    ensures forall v :: v in ChartUnits && v.scale <= Coerce(maxUsd) ==> v.scale <= u.scale
    ensures Coerce(maxUsd) < 1000000000000000.0 ==> Coerce(maxUsd) < 1000.0 * u.scale
  {
    var m := Coerce(maxUsd);
    if m >= 1000000000000.0 then ChartUnit("T", 1000000000000.0)
    else if m >= 1000000000.0 then ChartUnit("B", 1000000000.0)
    else if m >= 1000000.0 then ChartUnit("M", 1000000.0)
    else if m >= 1000.0 then ChartUnit("K", 1000.0)
    else ChartUnit("", 1.0)
  }

  function Abs(x: real): real {
    if x < 0.0 then -x else x
  }

  /** The number of digits before the decimal point of a magnitude from 1 up to 1000. */
  function IntegerDigits(v: real): int
    requires 1.0 <= v < 1000.0
  {
    if v >= 100.0 then 3 else if v >= 10.0 then 2 else 1
  }

  /**
   * `decimalsForScaledValue`: at most two decimals, and a value from 1 up to 1000 in magnitude is
   * shown with three significant digits.
   */
  function DecimalsForScaledValue(valueScaled: RawValue): (d: int)
    ensures 0 <= d <= 2
    ensures var v := Abs(Coerce(valueScaled)); 1.0 <= v < 1000.0 ==> IntegerDigits(v) + d == 3
    ensures Abs(Coerce(valueScaled)) < 10.0 ==> d == 2
  {
    var v := Abs(Coerce(valueScaled));
    if v >= 100.0 then 0
    else if v >= 10.0 then 1
    else 2
  }

  /** Larger magnitudes never get more decimals. */
  lemma DecimalsMonotone(a: real, b: real)
    requires Abs(a) <= Abs(b)
    ensures DecimalsForScaledValue(Num(b)) <= DecimalsForScaledValue(Num(a))
  {
    if Abs(b) < 10.0 {
      assert DecimalsForScaledValue(Num(a)) == 2;
    }
  }

  // ---------------------------------------------------------------------------------------------
  // The fallback section colour

  const Uint32: int := 0x1_0000_0000
  const PaletteSize: int := 16

  /** `(h * 31 + c) >>> 0`: the products stay below 2^53, so the double arithmetic is exact. */
  function HashStep(h: int, c: char): int {
    (h * 31 + c as int) % Uint32
  }

  /** The hash after the characters of `s`, from left to right. */
  function SectionHash(s: string): (h: int)
    ensures 0 <= h < Uint32
    decreases |s|
  {
    if s == [] then 0 else HashStep(SectionHash(s[..|s| - 1]), s[|s| - 1])
  }

  /** The same hash without wrap-around: the character codes as digits in base 31. */
  function Polynomial(s: string): int
    decreases |s|
  {
    if s == [] then 0 else Polynomial(s[..|s| - 1]) * 31 + s[|s| - 1] as int
  }

  lemma ModMulAdd(a: int, c: int)
    ensures ((a % Uint32) * 31 + c) % Uint32 == (a * 31 + c) % Uint32
  {
    var q := a / Uint32;
    assert a == q * Uint32 + a % Uint32;
    assert a * 31 + c == ((a % Uint32) * 31 + c) + (q * 31) * Uint32;
    ModShift((a % Uint32) * 31 + c, q * 31);
  }

  lemma ModShift(x: int, k: int)
    ensures (x + k * Uint32) % Uint32 == x % Uint32
  {
    var r := x % Uint32;
    assert x == (x / Uint32) * Uint32 + r;
    assert x + k * Uint32 == (x / Uint32 + k) * Uint32 + r;
  }

  /** The unsigned 32-bit hash is the base-31 polynomial of the codes, reduced modulo 2^32. */
  lemma {:induction false} SectionHashIsPolynomial(s: string)
    ensures SectionHash(s) == Polynomial(s) % Uint32
    decreases |s|
  {
    if s != [] {
      var p := s[..|s| - 1];
      SectionHashIsPolynomial(p);
      ModMulAdd(Polynomial(p), s[|s| - 1] as int);
    }
  }

  /** The loop of `sectionColor` that hashes the code, and the palette index it picks. */
  method SectionPaletteIndex(sectionCode: string) returns (index: int)
    ensures 0 <= index < PaletteSize
    ensures index == SectionHash(sectionCode) % PaletteSize
  {
    var h := 0;
    for i := 0 to |sectionCode|
      invariant h == SectionHash(sectionCode[..i])
    {
      assert sectionCode[..i + 1][..i] == sectionCode[..i];
      h := (h * 31 + sectionCode[i] as int) % Uint32;
    }
    assert sectionCode[..|sectionCode|] == sectionCode;
    index := h % PaletteSize;
  }

  /** Where a section colour comes from. */
  datatype SectionColor = FixedByLongName | Neutral | FromPalette(index: int)

  /**
   * `sectionColor`: a section long name with a fixed colour wins; without a code the neutral grey
   * is used; otherwise the hash picks a palette entry.
   */
  function SectionColorOf(sectionCode: string, longNameHasFixedColor: bool): (c: SectionColor)
    ensures c.FromPalette? <==> !longNameHasFixedColor && sectionCode != ""
    ensures c.FromPalette? ==> 0 <= c.index < PaletteSize && c.index == (Polynomial(sectionCode) % Uint32) % PaletteSize
  {
    SectionHashIsPolynomial(sectionCode);
    if longNameHasFixedColor then FixedByLongName
    else if sectionCode == "" then Neutral
    else FromPalette(SectionHash(sectionCode) % PaletteSize)
  }

  // ---------------------------------------------------------------------------------------------
  // Tooltip placement

  const TooltipPad: real := 12.0

  /**
   * One coordinate of `tooltip.move`: just after the pointer, or before it when that would run past
   * the viewport, but never closer to the edge than the padding. When the viewport has room for the
   * tooltip and the pointer is inside it, the tooltip stays inside with the padding; and it never
   * covers the pointer unless it is pinned at the padding.
   */
  function Place(pointer: real, size: real, viewport: real): (p: real)
    requires size >= 0.0
    ensures 0.0 <= pointer <= viewport && size + 2.0 * TooltipPad <= viewport ==>
      TooltipPad <= p && p + size + TooltipPad <= viewport
    ensures p == pointer + TooltipPad || p + size + TooltipPad <= pointer || p == TooltipPad
    ensures pointer + 2.0 * TooltipPad + size <= viewport ==> p == pointer + TooltipPad
  {
    var start := pointer + TooltipPad;
    if start + size + TooltipPad > viewport then
      (if TooltipPad >= pointer - size - TooltipPad then TooltipPad else pointer - size - TooltipPad)
    else start
  }

  /** `tooltip.move(x, y)` for a tooltip of `w` x `h` in a `vw` x `vh` viewport. */
  function TooltipMove(x: real, y: real, w: real, h: real, vw: real, vh: real): (pos: (real, real))
    requires w >= 0.0 && h >= 0.0
    ensures 0.0 <= x <= vw && w + 2.0 * TooltipPad <= vw ==> TooltipPad <= pos.0 && pos.0 + w + TooltipPad <= vw
    ensures 0.0 <= y <= vh && h + 2.0 * TooltipPad <= vh ==> TooltipPad <= pos.1 && pos.1 + h + TooltipPad <= vh
  {
    (Place(x, w, vw), Place(y, h, vh))
  }
}
