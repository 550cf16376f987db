/** What the answer about a printable area says, and the answers that the tests give. */
module AreaAnswers {
  import opened Prelude
  import opened Decimal
  import opened ParamMap
  import opened PrintableArea

  // ------------------------------------------------------------------ field by field

  /** n is this length in pixels, to the nearest one. */
  ghost predicate Nearest(n: int, inches: real, dpi: int) {
    -0.5 <= n as real - Times(inches, dpi as real) <= 0.5
  }

  /** The answer is about this sheet, at the resolution asked for or at 300 dpi. */
  ghost predicate About(a: Area, s: Sheet, units: int) {
    && a.pageWidth == s.width && a.pageHeight == s.height
    && a.pixelUnits == (if units > 0 then units else 300)
  }

  ghost predicate HasMargins(a: Area, margin: real) {
    a.topMargin == margin && a.leftMargin == margin && a.rightMargin == margin && a.bottomMargin == margin
  }

  ghost predicate UniqueNames(dims: seq<Sheet>) {
    forall i, j :: 0 <= i < j < |dims| ==> dims[i].media != dims[j].media
  }

  lemma SheetNamesUnique()
    ensures UniqueNames(MEDIA_DIMS)
  {
    assert forall i :: 0 <= i < |MEDIA_DIMS| ==> MediaRank(MEDIA_DIMS[i].media) == i;
  }

  lemma {:induction false} SheetIs(dims: seq<Sheet>, s: Sheet)
    requires UniqueNames(dims) && s in dims
    ensures FindSheet(dims, s.media) == Some(s)
  {
    var i :| 0 <= i < |dims| && dims[i] == s;
    if i > 0 {
      assert dims[1..][i - 1] == s;
      SheetIs(dims[1..], s);
    }
  }

  /** There is one sheet of a name, and the answer is about that. */
  lemma AreaIsOn(media: string, s: Sheet, p: PrintParams, units: int)
    requires s in MEDIA_DIMS && s.media == media
    ensures AreaOf(media, p, units) == AreaOn(s, p, if units > 0 then units else 300)
  {
    SheetNamesUnique();
    SheetIs(MEDIA_DIMS, s);
    hide FindSheet, AreaOn, UniqueNames;
  }

  lemma {:induction false} SheetHasName(dims: seq<Sheet>, media: string)
    ensures FindSheet(dims, media).Some? ==> FindSheet(dims, media).value.media == media
  {
    if dims != [] && dims[0].media != media { SheetHasName(dims[1..], media); }
  }

  /** A borderless job gets the whole sheet: its width across, its height down, and no margins. */
  lemma BorderlessAnswer(media: string, s: Sheet, p: PrintParams, units: int)
    requires s in MEDIA_DIMS && s.media == media && p.borderless
    ensures AreaOf(media, p, units).Fits?
    ensures var a := AreaOf(media, p, units).area;
            && About(a, s, units) && HasMargins(a, 0.0) && !a.paramsAdjusted
            && a.rawWidth == a.width && a.rawHeight == a.height
            && Nearest(a.width, s.width, a.pixelUnits) && Nearest(a.height, s.height, a.pixelUnits)
  {
    AreaIsOn(media, s, p, units);
    hide AreaOf, Px, Times;
    PxNear(s.width, Dpi(units));
    PxNear(s.height, Dpi(units));
  }

  /**
   * A bordered job keeps 1/8 inch on every side. Without further insets it would have the raw size; with them it has,
   * to the pixel, what the insets, raised to 1/8 inch, leave in between, counted inclusively. The answer says so if
   * any had to be raised.
   */
  lemma BorderedAnswer(media: string, s: Sheet, p: PrintParams, units: int)
    requires s in MEDIA_DIMS && s.media == media && !p.borderless
    ensures AreaOf(media, p, units).Fits? ==>
            var a := AreaOf(media, p, units).area;
            && About(a, s, units) && HasMargins(a, 0.125)
            && (a.paramsAdjusted <==> p.topInset < 0.125 || p.leftInset < 0.125 || p.rightInset < 0.125 || p.bottomInset < 0.125)
            && Nearest(a.rawWidth, s.width - 0.25, a.pixelUnits) && Nearest(a.rawHeight, s.height - 0.25, a.pixelUnits)
            && Spans(a.width, s.width, p.leftInset, p.rightInset, a.pixelUnits)
            && Spans(a.height, s.height, p.topInset, p.bottomInset, a.pixelUnits)
  {
    var d := if units > 0 then units else 300;
    AreaIsOn(media, s, p, units);
    hide AreaOf, Raw, Extent, Nearest, Spans;
    RawIsNearest(s.width, d);
    RawIsNearest(s.height, d);
    ExtentSpans(s.width, p.leftInset, p.rightInset, d);
    ExtentSpans(s.height, p.topInset, p.bottomInset, d);
  }

  lemma RawIsNearest(extent: real, d: int)
    ensures Nearest(Raw(extent, d), extent - 0.25, d)
  {
    hide Px, Times;
    PxNear(extent - DEFAULT_MARGIN - DEFAULT_MARGIN, d);
  }

  lemma ExtentSpans(extent: real, a: real, b: real, d: int)
    ensures Extent(extent, a, b, d) >= 1 ==> Spans(Extent(extent, a, b, d), extent, a, b, d)
  {
    hide Times, Extent;
    ExtentNearIdeal(extent, a, b, d);
  }

  /** The pixels between two insets of at least 1/8 inch, both ends counted. */
  ghost predicate Spans(size: int, extent: real, a: real, b: real, dpi: int) {
    var x, y := if a < 0.125 then 0.125 else a, if b < 0.125 then 0.125 else b;
    1 <= size && -1.0 <= (size - 1) as real - Times(extent - x - y, dpi as real) <= 1.0
  }

  /** There is no answer for a name without a sheet, and otherwise only for a bordered job. */
  lemma NoAnswer(media: string, p: PrintParams, units: int)
    ensures AreaOf(media, p, units) == NoArea(-608) <==> forall s :: s in MEDIA_DIMS ==> s.media != media
    ensures AreaOf(media, p, units).NoArea? ==> AreaOf(media, p, units).err in {-608, -613}
    ensures AreaOf(media, p, units) == NoArea(-613) ==> !p.borderless
  {
    SheetFound(MEDIA_DIMS, media);
    hide FindSheet, Extent, Px;
    if FindSheet(MEDIA_DIMS, media).None? {
      forall s | s in MEDIA_DIMS
        ensures s.media != media
      {
        var i :| 0 <= i < |MEDIA_DIMS| && MEDIA_DIMS[i] == s;
      }
    } else {
      SheetHasName(MEDIA_DIMS, media);
      assert FindSheet(MEDIA_DIMS, media).value in MEDIA_DIMS;
    }
  }

  // --------------------------------------------------------------------- rounding

  /** Rounding is to the nearest integer, halves away from zero; a cast to int cuts toward zero. */
  lemma RoundingIs(x: real)
    ensures -0.5 <= Round(x) as real - x <= 0.5
    ensures Round(x) as real - x == 0.5 ==> x > 0.0
    ensures Round(x) as real - x == -0.5 ==> x < 0.0
    ensures x >= 0.0 ==> Trunc(x) as real <= x < Trunc(x) as real + 1.0
    ensures x < 0.0 ==> Trunc(x) as real - 1.0 < x <= Trunc(x) as real
  {}

  // ------------------------------------------------ sizes spelled in the IPP names

  /** The number of up to three digits spelled between two positions. */
  function NumberAt(s: string, i: nat, j: nat): nat
    requires i < j <= |s| && j <= i + 3
  {
    if j == i + 1 then DigitValue(s[i])
    else if j == i + 2 then 10 * DigitValue(s[i]) + DigitValue(s[i + 1])
    else 100 * DigitValue(s[i]) + 10 * DigitValue(s[i + 1]) + DigitValue(s[i + 2])
  }

  /** The length spelled there: three digits, or two with a point between them, or fewer. */
  function LengthAt(s: string, i: nat, j: nat): real
    requires i < j <= |s| && j <= i + 3
  {
    if j == i + 3 && s[i + 1] == '.' then DigitValue(s[i]) as real + DigitValue(s[i + 2]) as real / 10.0
    else NumberAt(s, i, j) as real
  }

  /** The name ends in "_", the width, "x", the height and the unit, "in" or "mm". */
  ghost predicate NamesSize(name: string, s: Sheet) {
    exists a: nat, x: nat :: SizeAt(name, s, a, x)
  }

  ghost predicate SizeAt(name: string, s: Sheet, a: nat, x: nat) {
    && 0 < a < x <= a + 3 && x + 1 < |name| - 2 <= x + 4 && name[a - 1] == '_' && name[x] == 'x'
    && var w, h := LengthAt(name, a, x), LengthAt(name, x + 1, |name| - 2);
       if name[|name| - 1] == 'm' then s.width == w / 25.4 && s.height == h / 25.4 else s.width == w && s.height == h
  }

  /** Every sheet with an IPP name has the size its name spells out. */
  lemma SheetsAreAsNamed(i: nat)
    requires i < |MEDIA_DIMS| && MEDIA_TABLE[i].ipp.Some?
    ensures MEDIA_TABLE[i].webos == MEDIA_DIMS[i].media && NamesSize(MEDIA_TABLE[i].ipp.value, MEDIA_DIMS[i])
  {
    hide SizeAt;
    if i < 4 { InchSizes(i); } else if i < 6 { MetricSizes(i); } else if i < 8 { SmallMetricSizes(i); } else { PhotoSizes(i); }
  }

  lemma InchSizes(i: nat)
    requires i < 4
    ensures NamesSize(MEDIA_TABLE[i].ipp.value, MEDIA_DIMS[i])
  {
    assert SizeAt("na_letter_8.5x11in", MEDIA_DIMS[0], 10, 13);
    assert SizeAt("na_legal_8.5x14in", MEDIA_DIMS[1], 9, 12);
    assert SizeAt("na_ledger_11x17in", MEDIA_DIMS[2], 10, 12);
    assert SizeAt("na_super-b_13x19in", MEDIA_DIMS[3], 11, 13);
  }

  lemma MetricSizes(i: nat)
    requires 4 <= i < 6
    ensures NamesSize(MEDIA_TABLE[i].ipp.value, MEDIA_DIMS[i])
  {
    assert SizeAt("iso_a3_297x420mm", MEDIA_DIMS[4], 7, 10);
    assert SizeAt("iso_a4_210x297mm", MEDIA_DIMS[5], 7, 10);
  }

  lemma SmallMetricSizes(i: nat)
    requires 6 <= i < 8
    ensures NamesSize(MEDIA_TABLE[i].ipp.value, MEDIA_DIMS[i])
  {
    assert SizeAt("iso_a6_105x148mm", MEDIA_DIMS[6], 7, 10);
    assert SizeAt("jpn_hagaki_100x148mm", MEDIA_DIMS[7], 11, 14);
  }

  lemma PhotoSizes(i: nat)
    requires 8 <= i < 14
    ensures NamesSize(MEDIA_TABLE[i].ipp.value, MEDIA_DIMS[i])
  {
    assert SizeAt("oe_photo-l_3.5x5in", MEDIA_DIMS[8], 11, 14);
    assert SizeAt("na_index-4x6_4x6in", MEDIA_DIMS[9], 13, 14);
    assert SizeAt("na_5x7_5x7in", MEDIA_DIMS[10], 7, 8);
    assert SizeAt("na_5x7_5x7in", MEDIA_DIMS[11], 7, 8);
    assert SizeAt("na_govt-letter_8x10in", MEDIA_DIMS[12], 15, 16);
    assert SizeAt("om_photo-10x15_100x150mm", MEDIA_DIMS[13], 15, 18);
  }

  // -------------------------------------------------------------------- given values

  function WithEach(inset: real): PrintParams {
    InitialParams().(topInset := inset, leftInset := inset, rightInset := inset, bottomInset := inset, insetsSet := true)
  }

  /** Letter at 300 dpi with half an inch, a quarter and nothing on every side. */
  lemma LetterAnswers()
    ensures AreaOf("US_Letter", WithEach(0.5), 300)
            == Fits(Area(300, 2475, 3225, 2251, 3001, 8.5, 11.0, 0.125, 0.125, 0.125, 0.125, false))
    ensures AreaOf("US_Letter", WithEach(0.25), 300).Fits?
            && AreaOf("US_Letter", WithEach(0.25), 300).area.width == 2401
            && AreaOf("US_Letter", WithEach(0.25), 300).area.height == 3151
    ensures AreaOf("US_Letter", WithEach(0.0), 300).Fits?
            && AreaOf("US_Letter", WithEach(0.0), 300).area.paramsAdjusted
            && AreaOf("US_Letter", WithEach(0.0), 300).area.width == 2476
  {}

  /** Borderless Letter, and insets that leave nothing of it. */
  lemma LetterExtremes()
    ensures AreaOf("US_Letter", InitialParams().(borderless := true), 300)
            == Fits(Area(300, 2550, 3300, 2550, 3300, 8.5, 11.0, 0.0, 0.0, 0.0, 0.0, false))
    ensures AreaOf("US_Letter", WithEach(0.5).(topInset := 20.0, bottomInset := 20.0), 300) == NoArea(-613)
  {}

  /** The raw size of A4. */
  lemma A4Answer()
    ensures var r := AreaOf("ISO_A4", InitialParams(), 300);
            r.Fits? && r.area.rawWidth == 2405 && r.area.rawHeight == 3433
  {
    var s := MEDIA_DIMS[5];
    A4Is();
    hide MM;
    AreaIsOn("ISO_A4", s, InitialParams(), 300);
    hide AreaOf, Extent, Raw, FindSheet;
  }

  lemma A4Is()
    ensures var s := MEDIA_DIMS[5];
            && s in MEDIA_DIMS && s.media == "ISO_A4"
            && Raw(s.width, 300) == 2405 && Raw(s.height, 300) == 3433
            && Extent(s.width, 0.125, 0.125, 300) == 2406 && Extent(s.height, 0.125, 0.125, 300) == 3434
  {}

  /** A size nobody knows. */
  lemma UnknownSize(p: PrintParams)
    ensures AreaOf("NoSuchSize", p, 300) == NoArea(-608)
  {
    NoAnswer("NoSuchSize", p, 300);
    NoSheetStartsSo();
    hide AreaOf;
  }

  lemma NoSheetStartsSo()
    ensures forall s :: s in MEDIA_DIMS ==> |s.media| > 0 && s.media[0] != 'N'
  {
    forall i | 0 <= i < |MEDIA_DIMS|
      ensures |MEDIA_DIMS[i].media| > 0 && MEDIA_DIMS[i].media[0] != 'N'
    {}
  }
}
