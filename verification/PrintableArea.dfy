/** Sheet sizes and the printable area of a job, in exact real arithmetic. */
module PrintableArea {
  import opened Prelude
  import opened ParamMap
  import opened PrintErrors

  const DEFAULT_MARGIN := 0.125

  // The fields of struct print_params; a job starts with the values of InitialParams.
  datatype PrintParams = PrintParams(
    mediaSize: string, mediaType: string, printQuality: string, duplex: string,
    dryTime: string, color: string, tray: string, numCopies: int,
    borderless: bool, autoRotate: bool, autoScale: bool,
    topInset: real, leftInset: real, rightInset: real, bottomInset: real, insetsSet: bool)

  function InitialParams(): PrintParams {
    PrintParams("US_Letter", "Plain", "Normal", "None", "Normal", "Color", "Auto", 1, false, false, false,
                DEFAULT_MARGIN, DEFAULT_MARGIN, DEFAULT_MARGIN, DEFAULT_MARGIN, false)
  }

  datatype Sheet = Sheet(media: string, width: real, height: real)

  function MM(x: real): real { x / 25.4 }

  const MEDIA_DIMS: seq<Sheet> := [
    Sheet("US_Letter", 8.5, 11.0),
    Sheet("US_Legal", 8.5, 14.0),
    Sheet("B_Tabloid", 11.0, 17.0),
    Sheet("Super B", 13.0, 19.0),
    Sheet("ISO_A3", MM(297.0), MM(420.0)),
    Sheet("ISO_A4", MM(210.0), MM(297.0)),
    Sheet("ISO_A6", MM(105.0), MM(148.0)),
    Sheet("HAGAKI", MM(100.0), MM(148.0)),
    Sheet("Photo_L", 3.5, 5.0),
    Sheet("Photo_4x6", 4.0, 6.0),
    Sheet("Photo_5x7", 5.0, 7.0),
    Sheet("Photo_5x7_MainTray", 5.0, 7.0),
    Sheet("Photo_8x10", 8.0, 10.0),
    Sheet("Photo_10x15", MM(100.0), MM(150.0)),
    Sheet("Photo_11x14", 11.0, 14.0),
    Sheet("Photo_4x8", 4.0, 8.0),
    Sheet("Photo_4X12", 4.0, 12.0),
    Sheet("Printable CD 3.5 inch", 3.5, 3.5),
    Sheet("Printable CD 5 inch", MM(120.0), MM(120.0))
  ]

  function FindSheet(dims: seq<Sheet>, media: string): Option<Sheet> {
    if dims == [] then None
    else if dims[0].media == media then Some(dims[0])
    else FindSheet(dims[1..], media)
  }

  method MediaLookup(media: string) returns (r: Option<Sheet>)
    ensures r == FindSheet(MEDIA_DIMS, media)
  {
    for i := 0 to |MEDIA_DIMS|
      invariant FindSheet(MEDIA_DIMS, media) == FindSheet(MEDIA_DIMS[i..], media)
    {
      if MEDIA_DIMS[i].media == media { return Some(MEDIA_DIMS[i]); }
    }
    return None;
  }

  // ---------------------------------------------------------------- rounding

  /** lround: to the nearest integer, halves away from zero. */
  function Round(x: real): int {
    if x >= 0.0 then (x + 0.5).Floor else -((0.5 - x).Floor)
  }

  /** A C cast of a double to int: toward zero. */
  function Trunc(x: real): int {
    if x >= 0.0 then x.Floor else -((-x).Floor)
  }

  lemma RoundNear(x: real)
    ensures -0.5 <= Round(x) as real - x <= 0.5
  {}

  lemma RoundMonotone(x: real, y: real)
    requires x <= y
    ensures Round(x) <= Round(y)
    ensures x + 1.0 <= y ==> Round(x) + 1 <= Round(y)
  {}

  // ---------------------------------------------------------------- products

  /** The product of two reals. Proofs hide it and use the laws below. */
  function Times(x: real, d: real): real {
    x * d
  }

  lemma Scale(x: real, y: real, d: real)
    requires x <= y && d > 0.0
    ensures Times(x, d) <= Times(y, d)
  {}

  lemma Distribute(x: real, y: real, z: real, d: real)
    requires x - y == z
    ensures Times(x, d) - Times(y, d) == Times(z, d)
  {}

  lemma One(d: real)
    ensures Times(1.0, d) == d && Times(-1.0, d) == -d && Times(0.0, d) == 0.0
  {}

  lemma Inverse(d: real)
    requires d != 0.0
    ensures Times(1.0 / d, d) == 1.0
  {}

  /** A constant factor may be taken out. */
  lemma Factor(c: real, x: real, d: real)
    ensures Times(c * x, d) == c * Times(x, d)
  {}

  lemma OfInts(m: int, n: int)
    ensures (n * m) as real == Times(m as real, n as real)
  {}

  /** Staying between -1 and 1 scales. */
  lemma ScaleUnit(x: real, d: real)
    requires -1.0 <= x <= 1.0 && d > 0.0
    ensures -d <= Times(x, d) <= d
  {
    hide Times;
    Scale(-1.0, x, d);
    Scale(x, 1.0, d);
    One(d);
  }

  // ------------------------------------------------------------------ pixels

  /** A length in whole pixels. */
  function Px(inches: real, dpi: int): int {
    Round(Times(inches, dpi as real))
  }

  lemma PxNear(x: real, d: int)
    ensures -0.5 <= Px(x, d) as real - Times(x, d as real) <= 0.5
  {
    hide Times, Round;
    RoundNear(Times(x, d as real));
  }

  lemma PxMonotone(x: real, y: real, d: int)
    requires d > 0 && x <= y
    ensures Px(x, d) <= Px(y, d)
  {
    hide Times, Round;
    Scale(x, y, d as real);
    RoundMonotone(Times(x, d as real), Times(y, d as real));
  }

  /** Lengths a whole pixel apart. */
  lemma PxStep(x: real, y: real, step: real, d: int)
    requires d > 0 && x + step <= y && Times(step, d as real) == 1.0
    ensures Px(x, d) + 1 <= Px(y, d)
  {
    hide Times, Round;
    Scale(x + step, y, d as real);
    Distribute(x + step, x, step, d as real);
    RoundMonotone(Times(x, d as real), Times(y, d as real));
  }

  // --------------------------------------------------------------------- area

  datatype Area = Area(
    pixelUnits: int, rawWidth: int, rawHeight: int, width: int, height: int,
    pageWidth: real, pageHeight: real,
    topMargin: real, leftMargin: real, rightMargin: real, bottomMargin: real,
    paramsAdjusted: bool)

  datatype AreaResult = Fits(area: Area) | NoArea(err: int)

  function Clamp(inset: real): real {
    if inset < DEFAULT_MARGIN then DEFAULT_MARGIN else inset
  }

  function Raw(extent: real, dpi: int): int {
    Px(extent - DEFAULT_MARGIN - DEFAULT_MARGIN, dpi)
  }

  /** Pixels along one axis between two opposite insets, counted inclusively. */
  function Extent(extent: real, a: real, b: real, dpi: int): int {
    Raw(extent, dpi) - Px((Clamp(a) - DEFAULT_MARGIN) + (Clamp(b) - DEFAULT_MARGIN), dpi) + 1
  }

  function Dpi(pixelUnits: int): int {
    if pixelUnits <= 0 then 300 else pixelUnits
  }

  function AreaOn(s: Sheet, p: PrintParams, d: int): AreaResult {
    if p.borderless then
      var w, h := Px(s.width, d), Px(s.height, d);
      Fits(Area(d, w, h, w, h, s.width, s.height, 0.0, 0.0, 0.0, 0.0, false))
    else
      var w := Extent(s.width, p.leftInset, p.rightInset, d);
      var h := Extent(s.height, p.topInset, p.bottomInset, d);
      if w <= 0 || h <= 0 then NoArea(INSET_OUTSIDE_AREA)
      else Fits(Area(d, Raw(s.width, d), Raw(s.height, d), w, h, s.width, s.height,
                     DEFAULT_MARGIN, DEFAULT_MARGIN, DEFAULT_MARGIN, DEFAULT_MARGIN,
                     p.topInset < DEFAULT_MARGIN || p.leftInset < DEFAULT_MARGIN
                     || p.rightInset < DEFAULT_MARGIN || p.bottomInset < DEFAULT_MARGIN))
  }

  function AreaOf(media: string, p: PrintParams, pixelUnits: int): AreaResult {
    match FindSheet(MEDIA_DIMS, media)
    case None => NoArea(BAD_MEDIA_SIZE)
    case Some(s) => AreaOn(s, p, Dpi(pixelUnits))
  }

  /** job_compute_area. */
  method ComputeArea(media: string, p: PrintParams, units: int) returns (r: AreaResult)
    ensures r == AreaOf(media, p, units)
  {
    var sheet := MediaLookup(media);
    if sheet.None? { return NoArea(BAD_MEDIA_SIZE); }
    r := FillArea(sheet.value, p, if units <= 0 then 300 else units);
  }

  /** Fills the answer step by step, raising each inset below the hardware margin. */
  method FillArea(s: Sheet, p: PrintParams, pixelUnits: int) returns (r: AreaResult)
    ensures r == AreaOn(s, p, pixelUnits)
  {
    var w, h := s.width, s.height;
    var margin := DEFAULT_MARGIN;
    var rawWidth, rawHeight := Px(w - margin - margin, pixelUnits), Px(h - margin - margin, pixelUnits);
    if p.borderless {
      rawWidth, rawHeight := Px(w, pixelUnits), Px(h, pixelUnits);
      return Fits(Area(pixelUnits, rawWidth, rawHeight, rawWidth, rawHeight, w, h, 0.0, 0.0, 0.0, 0.0, false));
    }
    var top, left, right, bottom := p.topInset, p.leftInset, p.rightInset, p.bottomInset;
    var adjusted := false;
    if top < margin { top := margin; adjusted := true; }
    if left < margin { left := margin; adjusted := true; }
    if right < margin { right := margin; adjusted := true; }
    if bottom < margin { bottom := margin; adjusted := true; }
    assert top == Clamp(p.topInset) && bottom == Clamp(p.bottomInset);
    assert left == Clamp(p.leftInset) && right == Clamp(p.rightInset);
    var width := rawWidth - Px((left - margin) + (right - margin), pixelUnits) + 1;
    var height := rawHeight - Px((top - margin) + (bottom - margin), pixelUnits) + 1;
    if width <= 0 || height <= 0 { return NoArea(INSET_OUTSIDE_AREA); }
    return Fits(Area(pixelUnits, rawWidth, rawHeight, width, height, w, h, margin, margin, margin, margin, adjusted));
  }

  // ------------------------------------------------- the sheets are all known

  /** Every accepted size but "None" has dimensions, and no other name has. */
  lemma SheetsMatchKeywords(media: string)
    ensures FindSheet(MEDIA_DIMS, media).Some? <==> Accepts(MEDIA_TABLE, media) && media != "None"
  {
    MediaKeywordsUnique();
    assert forall i :: 0 <= i < |MEDIA_DIMS| ==> MEDIA_DIMS[i].media == MEDIA_TABLE[i].webos;
    assert MEDIA_TABLE[|MEDIA_DIMS|].webos == "None";
    SheetsAllButLast(MEDIA_DIMS, MEDIA_TABLE, media);
  }

  lemma SheetsAllButLast(dims: seq<Sheet>, t: seq<Entry>, media: string)
    requires UniqueWebos(t) && |t| == |dims| + 1
    requires forall i :: 0 <= i < |dims| ==> dims[i].media == t[i].webos
    ensures FindSheet(dims, media).Some? <==> Accepts(t, media) && media != t[|dims|].webos
  {
    SheetFound(dims, media);
    if FindSheet(dims, media).Some? {
      var i :| 0 <= i < |dims| && dims[i].media == media;
      assert t[i].webos == media;
    } else if Accepts(t, media) {
      var i :| 0 <= i < |t| && t[i].webos == media;
      assert i == |dims|;
    }
  }

  lemma {:induction false} SheetFound(dims: seq<Sheet>, media: string)
    ensures FindSheet(dims, media).Some? <==> exists i :: 0 <= i < |dims| && dims[i].media == media
    ensures FindSheet(dims, media).Some? ==> FindSheet(dims, media).value in dims
  {
    if dims != [] && dims[0].media != media {
      SheetFound(dims[1..], media);
      if FindSheet(dims[1..], media).Some? {
        var i :| 0 <= i < |dims[1..]| && dims[1..][i].media == media;
        assert dims[i + 1].media == media;
      } else {
        assert forall i :: 0 < i < |dims| ==> dims[i] == dims[1..][i - 1];
      }
    }
  }

  lemma MetricIsLarge()
    ensures forall x :: x >= 100.0 ==> MM(x) >= 3.5
  {}

  ghost predicate Large(s: Sheet) {
    s.width >= 3.5 && s.height >= 3.5
  }

  lemma SheetsAreLarge(media: string)
    requires FindSheet(MEDIA_DIMS, media).Some?
    ensures Large(FindSheet(MEDIA_DIMS, media).value)
  {
    SheetFound(MEDIA_DIMS, media);
    forall i | 0 <= i < |MEDIA_DIMS|
      ensures Large(MEDIA_DIMS[i])
    {
      if i < 4 || 8 <= i < 13 || 14 <= i < 18 { InchSheetIsLarge(i); } else { MetricSheetIsLarge(i); }
    }
  }

  lemma InchSheetIsLarge(i: int)
    requires 0 <= i < 4 || 8 <= i < 13 || 14 <= i < 18
    ensures Large(MEDIA_DIMS[i])
  {}

  lemma MetricSheetIsLarge(i: int)
    requires 4 <= i < 8 || i == 13 || i == 18
    ensures Large(MEDIA_DIMS[i])
  {
    hide MM;
    MetricIsLarge();
  }

  // --------------------------------------------------------------- acceptance

  /** The part of the sheet beyond the insets, in pixels before rounding. */
  function Ideal(extent: real, a: real, b: real, dpi: int): real {
    Times(extent - Clamp(a) - Clamp(b), dpi as real)
  }

  /** Two roundings cost at most one pixel. */
  lemma ExtentNearIdeal(extent: real, a: real, b: real, dpi: int)
    ensures -1.0 <= (Extent(extent, a, b, dpi) - 1) as real - Ideal(extent, a, b, dpi) <= 1.0
  {
    var x := extent - DEFAULT_MARGIN - DEFAULT_MARGIN;
    var y := (Clamp(a) - DEFAULT_MARGIN) + (Clamp(b) - DEFAULT_MARGIN);
    ExtentIs(extent, a, b, dpi);
    hide Px, Clamp, Extent, Times;
    PxNear(x, dpi);
    PxNear(y, dpi);
    Distribute(x, y, extent - Clamp(a) - Clamp(b), dpi as real);
  }

  lemma ExtentIs(extent: real, a: real, b: real, dpi: int)
    ensures Extent(extent, a, b, dpi) - 1
            == Px(extent - DEFAULT_MARGIN - DEFAULT_MARGIN, dpi)
               - Px((Clamp(a) - DEFAULT_MARGIN) + (Clamp(b) - DEFAULT_MARGIN), dpi)
  {
    hide Px, Clamp;
  }

  /** Exact to one pixel: an axis that fits has a pixel, an axis over by 1/dpi inch has none. */
  lemma ExtentPositive(extent: real, a: real, b: real, dpi: int)
    requires dpi > 0
    ensures Clamp(a) + Clamp(b) <= extent ==> Extent(extent, a, b, dpi) >= 1
    ensures Clamp(a) + Clamp(b) >= extent + 1.0 / dpi as real ==> Extent(extent, a, b, dpi) <= 0
  {
    var x := extent - DEFAULT_MARGIN - DEFAULT_MARGIN;
    var y := (Clamp(a) - DEFAULT_MARGIN) + (Clamp(b) - DEFAULT_MARGIN);
    hide Px, Times, Clamp;
    if y <= x { PxMonotone(y, x, dpi); }
    Inverse(dpi as real);
    if x + 1.0 / dpi as real <= y { PxStep(x, y, 1.0 / dpi as real, dpi); }
  }

  /**
   * With insets raised to 1/8 inch, a bordered job fits when opposite insets fit the sheet on both axes,
   * and is refused with -613 when either axis overshoots by 1/dpi inch or more.
   */
  lemma AcceptanceToOnePixel(media: string, p: PrintParams, units: int)
    requires FindSheet(MEDIA_DIMS, media).Some? && !p.borderless
    ensures var s, d := FindSheet(MEDIA_DIMS, media).value, Dpi(units);
            var h, v := Clamp(p.leftInset) + Clamp(p.rightInset), Clamp(p.topInset) + Clamp(p.bottomInset);
            && (h <= s.width && v <= s.height ==>
                  AreaOf(media, p, units).Fits? && AreaOf(media, p, units).area.width >= 1
                  && AreaOf(media, p, units).area.height >= 1)
            && (h >= s.width + 1.0 / d as real || v >= s.height + 1.0 / d as real ==>
                  AreaOf(media, p, units) == NoArea(INSET_OUTSIDE_AREA))
  {
    SheetAcceptance(FindSheet(MEDIA_DIMS, media).value, p, Dpi(units));
  }

  lemma SheetAcceptance(s: Sheet, p: PrintParams, d: int)
    requires !p.borderless && d > 0
    ensures var h, v := Clamp(p.leftInset) + Clamp(p.rightInset), Clamp(p.topInset) + Clamp(p.bottomInset);
            && (h <= s.width && v <= s.height ==>
                  AreaOn(s, p, d).Fits? && AreaOn(s, p, d).area.width >= 1 && AreaOn(s, p, d).area.height >= 1)
            && (h >= s.width + 1.0 / d as real || v >= s.height + 1.0 / d as real ==>
                  AreaOn(s, p, d) == NoArea(INSET_OUTSIDE_AREA))
  {
    ExtentPositive(s.width, p.leftInset, p.rightInset, d);
    ExtentPositive(s.height, p.topInset, p.bottomInset, d);
  }

  /** Borderless printing always has an area on a known sheet, at every resolution. */
  lemma BorderlessAlwaysFits(media: string, p: PrintParams, units: int)
    requires FindSheet(MEDIA_DIMS, media).Some? && p.borderless
    ensures AreaOf(media, p, units).Fits?
    ensures AreaOf(media, p, units).area.width >= 1 && AreaOf(media, p, units).area.height >= 1
  {
    SheetsAreLarge(media);
    LargeIsPositive(FindSheet(MEDIA_DIMS, media).value.width, Dpi(units));
    LargeIsPositive(FindSheet(MEDIA_DIMS, media).value.height, Dpi(units));
  }

  lemma LargeIsPositive(extent: real, d: int)
    requires extent >= 3.5 && d > 0
    ensures Px(extent, d) >= 1
  {
    hide Px, Times;
    PxMonotone(3.5, extent, d);
    PxNear(3.5, d);
    Scale(1.0, 3.5, d as real);
    One(d as real);
  }

  // ---------------------------------------------------------------- monotonicity

  /** A size never grows with an inset, depends only on the sum of opposite ones, and stays within raw + 1. */
  lemma ExtentShape(extent: real, a: real, b: real, a': real, b': real, dpi: int)
    requires dpi > 0
    ensures Clamp(a) + Clamp(b) <= Clamp(a') + Clamp(b') ==> Extent(extent, a', b', dpi) <= Extent(extent, a, b, dpi)
    ensures Clamp(a) + Clamp(b) == Clamp(a') + Clamp(b') ==> Extent(extent, a', b', dpi) == Extent(extent, a, b, dpi)
    ensures a <= a' && b <= b' ==> Extent(extent, a', b', dpi) <= Extent(extent, a, b, dpi)
    ensures Extent(extent, a, b, dpi) <= Raw(extent, dpi) + 1
  {
    var y := (Clamp(a) - DEFAULT_MARGIN) + (Clamp(b) - DEFAULT_MARGIN);
    var y' := (Clamp(a') - DEFAULT_MARGIN) + (Clamp(b') - DEFAULT_MARGIN);
    hide Px, Times;
    if y <= y' { PxMonotone(y, y', dpi); }
    PxMonotone(0.0, y, dpi);
    PxNear(0.0, dpi);
    One(dpi as real);
  }

  function Clamped(p: PrintParams): PrintParams {
    p.(topInset := Clamp(p.topInset), leftInset := Clamp(p.leftInset),
       rightInset := Clamp(p.rightInset), bottomInset := Clamp(p.bottomInset))
  }

  /** Asking again with the clamped insets changes nothing but the "adjusted" flag, which it clears. */
  lemma ClampingIsIdempotent(media: string, p: PrintParams, units: int)
    ensures match AreaOf(media, p, units)
            case NoArea(e) => AreaOf(media, Clamped(p), units) == NoArea(e)
            case Fits(a) => AreaOf(media, Clamped(p), units) == Fits(a.(paramsAdjusted := false))
  {
    if FindSheet(MEDIA_DIMS, media).Some? {
      ClampedSameExtents(FindSheet(MEDIA_DIMS, media).value, p, Dpi(units));
    }
  }

  lemma ClampedSameExtents(s: Sheet, p: PrintParams, d: int)
    ensures match AreaOn(s, p, d)
            case NoArea(e) => AreaOn(s, Clamped(p), d) == NoArea(e)
            case Fits(a) => AreaOn(s, Clamped(p), d) == Fits(a.(paramsAdjusted := false))
  {
    ExtentOfClamped(s.width, p.leftInset, p.rightInset, d);
    ExtentOfClamped(s.height, p.topInset, p.bottomInset, d);
  }

  lemma ExtentOfClamped(extent: real, a: real, b: real, d: int)
    ensures Extent(extent, Clamp(a), Clamp(b), d) == Extent(extent, a, b, d)
  {
    assert Clamp(Clamp(a)) == Clamp(a) && Clamp(Clamp(b)) == Clamp(b);
  }

  // ----------------------------------------------- agreement between two answers

  /** The size at 300 dpi and the size at D dpi describe the same length to within a pixel of each. */
  lemma ResolutionsAgree(extent: real, a: real, b: real, dpi: int)
    requires dpi > 0
    ensures var whatIf, final := Extent(extent, a, b, 300) - 1, Extent(extent, a, b, dpi) - 1;
            -(300 + dpi) <= 300 * final - dpi * whatIf <= 300 + dpi
  {
    hide Extent, Clamp, Times;
    ExtentNearIdeal(extent, a, b, dpi);
    ExtentNearIdeal(extent, a, b, 300);
    CrossMultiply(extent - Clamp(a) - Clamp(b), Extent(extent, a, b, 300) - 1, Extent(extent, a, b, dpi) - 1, dpi);
  }

  lemma CrossMultiply(free: real, m: int, n: int, dpi: int)
    requires dpi > 0
    requires -1.0 <= m as real - Times(free, 300 as real) <= 1.0
    requires -1.0 <= n as real - Times(free, dpi as real) <= 1.0
    ensures -(300 + dpi) <= 300 * n - dpi * m <= 300 + dpi
  {
    OffScaled(free, m as real, dpi as real);
    OfInts(m, dpi);
    hide Times;
    CrossInts(m, n, dpi, dpi * m, Times(free, dpi as real));
  }

  lemma OffScaled(free: real, m: real, d: real)
    requires d > 0.0 && -1.0 <= m - Times(free, 300.0) <= 1.0
    ensures -d <= Times(m, d) - 300.0 * Times(free, d) <= d
  {
    assert Times(free, 300.0) == 300.0 * free;
    hide Times;
    ScaleUnit(m - 300.0 * free, d);
    Distribute(m, 300.0 * free, m - 300.0 * free, d);
    Factor(300.0, free, d);
  }

  /** The last step, with every product a variable. */
  lemma CrossInts(m: int, n: int, dpi: int, dm: int, freed: real)
    requires -1.0 <= n as real - freed <= 1.0
    requires -(dpi as real) <= dm as real - 300.0 * freed <= dpi as real
    ensures -(300 + dpi) <= 300 * n - dm <= 300 + dpi
  {}

  // The last pixel is counted on a bordered sheet, and not on a borderless one.
  function Edge(p: PrintParams): int {
    if p.borderless then 0 else 1
  }

  /** So the what-if of a job at 300 dpi and its final answer at any resolution agree on both axes. */
  lemma AreasAgree(media: string, p: PrintParams, units: int)
    requires AreaOf(media, p, 300).Fits? && AreaOf(media, p, units).Fits?
    ensures var a, b, d, edge := AreaOf(media, p, 300).area, AreaOf(media, p, units).area, Dpi(units), Edge(p);
            && -(300 + d) <= 300 * (b.width - edge) - d * (a.width - edge) <= 300 + d
            && -(300 + d) <= 300 * (b.height - edge) - d * (a.height - edge) <= 300 + d
  {
    hide FindSheet, Extent, Px, Raw, Times;
    var s, d := FindSheet(MEDIA_DIMS, media).value, Dpi(units);
    if p.borderless {
      PixelsAgree(s.width, d);
      PixelsAgree(s.height, d);
    } else {
      ResolutionsAgree(s.width, p.leftInset, p.rightInset, d);
      ResolutionsAgree(s.height, p.topInset, p.bottomInset, d);
    }
  }

  lemma PixelsAgree(extent: real, dpi: int)
    requires dpi > 0
    ensures -(300 + dpi) <= 300 * Px(extent, dpi) - dpi * Px(extent, 300) <= 300 + dpi
  {
    hide Px, Times;
    PxNear(extent, dpi);
    PxNear(extent, 300);
    CrossMultiply(extent, Px(extent, 300), Px(extent, dpi), dpi);
  }
}
