/** The IPP side of the print parameters and the option list handed to CUPS. */
module CupsOptions {
  import opened Prelude
  import opened Decimal
  import opened ParamMap
  import opened PrintableArea

  datatype JobParams = JobParams(
    media: Option<string>, mediaType: Option<string>, mediaSource: Option<string>,
    sides: Option<string>, colorMode: Option<string>, printScaling: Option<string>,
    quality: int, copies: int, resolution: int, borderless: bool,
    topMargin: int, leftMargin: int, rightMargin: int, bottomMargin: int, marginsValid: bool)

  /** An inset in inches as hundredths of a millimetre. */
  function Hundredths(inset: real): int {
    Trunc(inset * 2540.0)
  }

  function BuildParams(p: PrintParams, maxResolution: int): JobParams {
    var margins := p.insetsSet && !p.borderless;
    JobParams(
      Fwd(MEDIA_TABLE, p.mediaSize), Fwd(MEDIATYPE_TABLE, p.mediaType), Fwd(TRAY_TABLE, p.tray),
      Fwd(DUPLEX_TABLE, p.duplex), Fwd(COLOR_TABLE, p.color), Some(if p.autoScale then "auto" else "none"),
      QualityToIpp(p.printQuality), p.numCopies, if p.printQuality == "MaxDpi" then maxResolution else 0,
      p.borderless,
      if margins then Hundredths(p.topInset) else 0,
      if margins then Hundredths(p.leftInset) else 0,
      if margins then Hundredths(p.rightInset) else 0,
      if margins then Hundredths(p.bottomInset) else 0,
      margins)
  }

  /** build_cups_params: a cleared record filled field by field. */
  method FillParams(p: PrintParams, maxResolution: int) returns (out: JobParams)
    ensures out == BuildParams(p, maxResolution)
  {
    hide Fwd, QualityToIpp;
    var media := LookupFwd(MEDIA_TABLE, Some(p.mediaSize));
    var mediaType := LookupFwd(MEDIATYPE_TABLE, Some(p.mediaType));
    var source := LookupFwd(TRAY_TABLE, Some(p.tray));
    var sides := LookupFwd(DUPLEX_TABLE, Some(p.duplex));
    var colorMode := LookupFwd(COLOR_TABLE, Some(p.color));
    out := JobParams(media, mediaType, source, sides, colorMode, None, QualityToIpp(p.printQuality), p.numCopies, 0,
                     p.borderless, 0, 0, 0, 0, false);
    if p.printQuality == "MaxDpi" { out := out.(resolution := maxResolution); }
    if p.autoScale {
      out := out.(printScaling := Some("auto"));
    } else {
      out := out.(printScaling := Some("none"));
    }
    if p.insetsSet && !p.borderless {
      out := out.(topMargin := Trunc(p.topInset * 2540.0), leftMargin := Trunc(p.leftInset * 2540.0),
                  rightMargin := Trunc(p.rightInset * 2540.0), bottomMargin := Trunc(p.bottomInset * 2540.0),
                  marginsValid := true);
    }
  }

  // -------------------------------------------------------------- option list

  datatype CupsOption = CupsOption(name: string, value: string)

  const NAMES: seq<string> := [
    "media", "media-type", "media-source", "sides", "print-color-mode", "print-scaling", "print-quality",
    "copies", "printer-resolution",
    "media-top-margin", "media-left-margin", "media-right-margin", "media-bottom-margin"
  ]

  function When(c: bool, v: string): Option<string> {
    if c then Some(v) else None
  }

  function MarginValue(p: JobParams, m: int): Option<string> {
    if p.borderless then Some("0") else When(p.marginsValid, SignedDec(m))
  }

  /** What the k-th name is set to, if it is set at all. */
  function Wanted(p: JobParams, k: nat): Option<string> {
    match k
    case 0 => p.media
    case 1 => p.mediaType
    case 2 => p.mediaSource
    case 3 => p.sides
    case 4 => p.colorMode
    case 5 => p.printScaling
    case 6 => When(p.quality != 0, SignedDec(p.quality))
    case 7 => When(p.copies > 0, SignedDec(p.copies))
    case 8 => When(p.resolution > 0, SignedDec(p.resolution) + "dpi")
    case 9 => MarginValue(p, p.topMargin)
    case 10 => MarginValue(p, p.leftMargin)
    case 11 => MarginValue(p, p.rightMargin)
    case 12 => MarginValue(p, p.bottomMargin)
    case _ => None
  }

  /** The options set among the first k names, in the order of the names. */
  function OptionsUpTo(p: JobParams, k: nat): seq<CupsOption>
    requires k <= |NAMES|
  {
    if k == 0 then []
    else
      match Wanted(p, k - 1)
      case None => OptionsUpTo(p, k - 1)
      case Some(v) => OptionsUpTo(p, k - 1) + [CupsOption(NAMES[k - 1], v)]
  }

  function Options(p: JobParams): seq<CupsOption> {
    OptionsUpTo(p, |NAMES|)
  }

  /** add_options: one cupsAddOption after another. */
  method AddOptions(p: JobParams) returns (num: nat, options: seq<CupsOption>)
    ensures options == Options(p) && num == |options|
  {
    options := MediaOptions(p);
    if p.sides.Some? { options := options + [CupsOption("sides", p.sides.value)]; }
    assert options == OptionsUpTo(p, 4);
    if p.colorMode.Some? { options := options + [CupsOption("print-color-mode", p.colorMode.value)]; }
    assert options == OptionsUpTo(p, 5);
    if p.printScaling.Some? { options := options + [CupsOption("print-scaling", p.printScaling.value)]; }
    assert options == OptionsUpTo(p, 6);
    if p.quality != 0 { options := options + [CupsOption("print-quality", SignedDec(p.quality))]; }
    assert options == OptionsUpTo(p, 7);
    if p.copies > 0 { options := options + [CupsOption("copies", SignedDec(p.copies))]; }
    assert options == OptionsUpTo(p, 8);
    if p.resolution > 0 { options := options + [CupsOption("printer-resolution", SignedDec(p.resolution) + "dpi")]; }
    assert options == OptionsUpTo(p, 9);
    options := AddMargins(p, options);
    num := |options|;
  }

  method MediaOptions(p: JobParams) returns (options: seq<CupsOption>)
    ensures options == OptionsUpTo(p, 3)
  {
    options := [];
    if p.media.Some? { options := options + [CupsOption("media", p.media.value)]; }
    assert options == OptionsUpTo(p, 1);
    if p.mediaType.Some? { options := options + [CupsOption("media-type", p.mediaType.value)]; }
    assert options == OptionsUpTo(p, 2);
    if p.mediaSource.Some? { options := options + [CupsOption("media-source", p.mediaSource.value)]; }
  }

  method AddMargins(p: JobParams, before: seq<CupsOption>) returns (options: seq<CupsOption>)
    requires before == OptionsUpTo(p, 9)
    ensures options == Options(p)
  {
    options := before;
    if p.borderless {
      options := options + [CupsOption("media-top-margin", "0")];
      assert options == OptionsUpTo(p, 10);
      options := options + [CupsOption("media-left-margin", "0")];
      assert options == OptionsUpTo(p, 11);
      options := options + [CupsOption("media-right-margin", "0")];
      assert options == OptionsUpTo(p, 12);
      options := options + [CupsOption("media-bottom-margin", "0")];
    } else if p.marginsValid {
      options := options + [CupsOption("media-top-margin", SignedDec(p.topMargin))];
      assert options == OptionsUpTo(p, 10);
      options := options + [CupsOption("media-left-margin", SignedDec(p.leftMargin))];
      assert options == OptionsUpTo(p, 11);
      options := options + [CupsOption("media-right-margin", SignedDec(p.rightMargin))];
      assert options == OptionsUpTo(p, 12);
      options := options + [CupsOption("media-bottom-margin", SignedDec(p.bottomMargin))];
    } else {
      assert options == OptionsUpTo(p, 10);
      assert options == OptionsUpTo(p, 11);
      assert options == OptionsUpTo(p, 12);
    }
  }

  // ------------------------------------------------------- what the list says

  function NameRank(s: string): int {
    match s
    case "media" => 0 case "media-type" => 1 case "media-source" => 2 case "sides" => 3
    case "print-color-mode" => 4 case "print-scaling" => 5 case "print-quality" => 6 case "copies" => 7
    case "printer-resolution" => 8 case "media-top-margin" => 9 case "media-left-margin" => 10
    case "media-right-margin" => 11 case "media-bottom-margin" => 12 case _ => -1
  }

  lemma NameRanks()
    ensures forall k :: 0 <= k < |NAMES| ==> NameRank(NAMES[k]) == k
  {}

  ghost predicate IsSet(p: JobParams, o: CupsOption, upTo: int) {
    var k := NameRank(o.name);
    0 <= k < upTo && Wanted(p, k) == Some(o.value)
  }

  lemma {:induction false} OptionsUpToExact(p: JobParams, k: nat)
    requires k <= |NAMES|
    ensures forall o :: o in OptionsUpTo(p, k) ==> IsSet(p, o, k)
    ensures forall j, v :: 0 <= j < k && Wanted(p, j) == Some(v) ==> CupsOption(NAMES[j], v) in OptionsUpTo(p, k)
  {
    hide Wanted, NameRank;
    NameRanks();
    if k > 0 {
      OptionsUpToExact(p, k - 1);
      var rest := OptionsUpTo(p, k - 1);
      if Wanted(p, k - 1).Some? {
        var last := CupsOption(NAMES[k - 1], Wanted(p, k - 1).value);
        assert OptionsUpTo(p, k) == rest + [last];
        assert forall o :: o in OptionsUpTo(p, k) <==> o in rest || o == last;
      }
    }
  }

  ghost predicate Ascending(o: seq<CupsOption>) {
    forall a, b :: 0 <= a < b < |o| ==> NameRank(o[a].name) < NameRank(o[b].name)
  }

  lemma {:induction false} OptionsAscend(p: JobParams, k: nat)
    requires k <= |NAMES|
    ensures Ascending(OptionsUpTo(p, k))
  {
    hide Wanted, NameRank;
    NameRanks();
    if k > 0 {
      OptionsAscend(p, k - 1);
      OptionsUpToExact(p, k - 1);
      var rest := OptionsUpTo(p, k - 1);
      assert forall a :: 0 <= a < |rest| ==> IsSet(p, rest[a], k - 1);
    }
  }

  /** The k-th name is given value v. */
  ghost predicate Sets(o: seq<CupsOption>, k: int, v: string) {
    0 <= k < |NAMES| && CupsOption(NAMES[k], v) in o
  }

  /** No option name is ever added twice, and an option has a value exactly when its field says so. */
  lemma OptionsExact(p: JobParams)
    ensures forall a, b :: 0 <= a < b < |Options(p)| ==> Options(p)[a].name != Options(p)[b].name
    ensures forall k, v :: 0 <= k < |NAMES| ==> (Sets(Options(p), k, v) <==> Wanted(p, k) == Some(v))
  {
    hide Wanted, NameRank;
    NameRanks();
    OptionsUpToExact(p, |NAMES|);
    OptionsAscend(p, |NAMES|);
    forall k, v | 0 <= k < |NAMES|
      ensures Sets(Options(p), k, v) <==> Wanted(p, k) == Some(v)
    {
      if CupsOption(NAMES[k], v) in Options(p) {
        assert IsSet(p, CupsOption(NAMES[k], v), |NAMES|);
      }
    }
  }

  /** The parameters a job can have: accepted keywords and 1 to 99 copies. */
  ghost predicate ValidParams(p: PrintParams) {
    && Accepts(MEDIA_TABLE, p.mediaSize) && Accepts(MEDIATYPE_TABLE, p.mediaType)
    && Accepts(QUALITY_TABLE, p.printQuality) && Accepts(DUPLEX_TABLE, p.duplex)
    && Accepts(DRYTIME_TABLE, p.dryTime) && Accepts(COLOR_TABLE, p.color)
    && Accepts(TRAY_TABLE, p.tray) && 1 <= p.numCopies <= 99
  }

  lemma InitialParamsValid()
    ensures ValidParams(InitialParams())
  {
    assert MEDIA_TABLE[0].webos == "US_Letter" && MEDIATYPE_TABLE[0].webos == "Plain";
    assert QUALITY_TABLE[1].webos == "Normal" && DUPLEX_TABLE[0].webos == "None";
    assert DRYTIME_TABLE[0].webos == "Normal" && COLOR_TABLE[1].webos == "Color" && TRAY_TABLE[1].webos == "Auto";
  }

  // ---------------------------------------------------------- what CUPS is told

  /** The sheet, the paper and the tray, by their IPP names. */
  ghost predicate TellsMedia(o: seq<CupsOption>, p: PrintParams) {
    && (forall v :: CupsOption("media", v) in o <==> Entry(p.mediaSize, Some(v)) in MEDIA_TABLE)
    && (forall v :: CupsOption("media-type", v) in o <==> Entry(p.mediaType, Some(v)) in MEDIATYPE_TABLE)
    && (forall v :: CupsOption("media-source", v) in o <==> FirstEntry(TRAY_TABLE, p.tray, v))
  }

  ghost predicate TellsLayout(o: seq<CupsOption>, p: PrintParams) {
    && (forall v :: CupsOption("sides", v) in o <==> Entry(p.duplex, Some(v)) in DUPLEX_TABLE)
    && (forall v :: CupsOption("print-color-mode", v) in o <==> Entry(p.color, Some(v)) in COLOR_TABLE)
    && (forall v :: CupsOption("print-scaling", v) in o <==> v == if p.autoScale then "auto" else "none")
    && (forall v :: CupsOption("copies", v) in o <==> p.numCopies > 0 && v == SignedDec(p.numCopies))
  }

  const QUALITY_NAMES := {("Fast", "3"), ("Normal", "4"), ("Best", "5"), ("MaxDpi", "5")}

  ghost predicate TellsQuality(o: seq<CupsOption>, p: PrintParams, maxResolution: int) {
    && (forall v :: CupsOption("print-quality", v) in o <==> (p.printQuality, v) in QUALITY_NAMES)
    && (forall v :: CupsOption("printer-resolution", v) in o <==>
                      p.printQuality == "MaxDpi" && maxResolution > 0 && v == SignedDec(maxResolution) + "dpi")
  }

  /** A margin is zero on a borderless job, else the explicit inset, else left out. */
  ghost predicate TellsMargin(o: seq<CupsOption>, name: string, p: PrintParams, inset: real) {
    forall v :: CupsOption(name, v) in o <==>
                  if p.borderless then v == "0" else p.insetsSet && v == SignedDec(Hundredths(inset))
  }

  ghost predicate TellsMargins(o: seq<CupsOption>, p: PrintParams) {
    && TellsMargin(o, "media-top-margin", p, p.topInset) && TellsMargin(o, "media-left-margin", p, p.leftInset)
    && TellsMargin(o, "media-right-margin", p, p.rightInset) && TellsMargin(o, "media-bottom-margin", p, p.bottomInset)
  }

  /** The options say about the parameters what the keyword tables and the insets say, and nothing else. */
  ghost predicate Tells(o: seq<CupsOption>, p: PrintParams, maxResolution: int) {
    && TellsMedia(o, p) && TellsLayout(o, p) && TellsQuality(o, p, maxResolution) && TellsMargins(o, p)
    && (forall x :: x in o ==> x.name in NAMES)
  }

  /** An option is there exactly with the value of its name. */
  lemma OptionIs(p: JobParams, k: nat, v: string)
    requires k < |NAMES|
    ensures CupsOption(NAMES[k], v) in Options(p) <==> Wanted(p, k) == Some(v)
  {
    hide Wanted, Options;
    OptionsExact(p);
    assert Sets(Options(p), k, v) <==> Wanted(p, k) == Some(v);
  }

  lemma MediaIs(p: PrintParams, maxResolution: int)
    ensures TellsMedia(Options(BuildParams(p, maxResolution)), p)
  {
    hide Options, Hundredths, QualityToIpp, Fwd;
    var j := BuildParams(p, maxResolution);
    MediaKeywordsUnique();
    MediaTypeKeywordsUnique();
    forall v
      ensures CupsOption("media", v) in Options(j) <==> Entry(p.mediaSize, Some(v)) in MEDIA_TABLE
      ensures CupsOption("media-type", v) in Options(j) <==> Entry(p.mediaType, Some(v)) in MEDIATYPE_TABLE
      ensures CupsOption("media-source", v) in Options(j) <==> FirstEntry(TRAY_TABLE, p.tray, v)
    {
      hide FirstEntry, UniqueWebos;
      OptionIs(j, 0, v);
      OptionIs(j, 1, v);
      OptionIs(j, 2, v);
      FwdSaysUnique(MEDIA_TABLE, p.mediaSize, v);
      FwdSaysUnique(MEDIATYPE_TABLE, p.mediaType, v);
      FwdSays(TRAY_TABLE, p.tray, v);
    }
  }

  lemma LayoutIs(p: PrintParams, maxResolution: int)
    ensures TellsLayout(Options(BuildParams(p, maxResolution)), p)
  {
    hide Options, Hundredths, QualityToIpp, Fwd, SignedDec;
    var j := BuildParams(p, maxResolution);
    DuplexAndColorKeywordsUnique();
    forall v
      ensures CupsOption("sides", v) in Options(j) <==> Entry(p.duplex, Some(v)) in DUPLEX_TABLE
      ensures CupsOption("print-color-mode", v) in Options(j) <==> Entry(p.color, Some(v)) in COLOR_TABLE
      ensures CupsOption("print-scaling", v) in Options(j) <==> v == if p.autoScale then "auto" else "none"
      ensures CupsOption("copies", v) in Options(j) <==> p.numCopies > 0 && v == SignedDec(p.numCopies)
    {
      hide UniqueWebos;
      OptionIs(j, 3, v);
      OptionIs(j, 4, v);
      OptionIs(j, 5, v);
      OptionIs(j, 7, v);
      FwdSaysUnique(DUPLEX_TABLE, p.duplex, v);
      FwdSaysUnique(COLOR_TABLE, p.color, v);
    }
  }

  lemma QualityDigits()
    ensures SignedDec(3) == "3" && SignedDec(4) == "4" && SignedDec(5) == "5"
  {}

  lemma QualityIs(p: PrintParams, maxResolution: int)
    ensures TellsQuality(Options(BuildParams(p, maxResolution)), p, maxResolution)
  {
    hide Options, Hundredths, Fwd;
    var j := BuildParams(p, maxResolution);
    QualityDigits();
    hide SignedDec;
    forall v
      ensures CupsOption("print-quality", v) in Options(j) <==> (p.printQuality, v) in QUALITY_NAMES
      ensures CupsOption("printer-resolution", v) in Options(j) <==>
                p.printQuality == "MaxDpi" && maxResolution > 0 && v == SignedDec(maxResolution) + "dpi"
    {
      OptionIs(j, 6, v);
      OptionIs(j, 8, v);
    }
  }

  lemma MarginIs(p: PrintParams, maxResolution: int, k: nat, inset: real)
    requires 9 <= k < |NAMES|
    requires inset == if k == 9 then p.topInset else if k == 10 then p.leftInset else if k == 11 then p.rightInset else p.bottomInset
    ensures TellsMargin(Options(BuildParams(p, maxResolution)), NAMES[k], p, inset)
  {
    hide Options, Hundredths, Fwd, QualityToIpp, SignedDec;
    var j := BuildParams(p, maxResolution);
    forall v
      ensures CupsOption(NAMES[k], v) in Options(j)
              <==> if p.borderless then v == "0" else p.insetsSet && v == SignedDec(Hundredths(inset))
    {
      OptionIs(j, k, v);
    }
  }

  /** The four margins are all zero, or all the explicit insets, or all left out. */
  lemma MarginOptions(p: PrintParams, maxResolution: int)
    ensures TellsMargins(Options(BuildParams(p, maxResolution)), p)
  {
    hide Options, BuildParams, TellsMargin;
    MarginIs(p, maxResolution, 9, p.topInset);
    MarginIs(p, maxResolution, 10, p.leftInset);
    MarginIs(p, maxResolution, 11, p.rightInset);
    MarginIs(p, maxResolution, 12, p.bottomInset);
  }

  lemma OnlyTheseNames(p: JobParams)
    ensures forall x :: x in Options(p) ==> x.name in NAMES
  {
    hide Wanted;
    OptionsUpToExact(p, |NAMES|);
    NameRanks();
    forall x | x in Options(p)
      ensures x.name in NAMES
    {
      assert IsSet(p, x, |NAMES|);
      RankDetermines(x.name);
    }
  }

  lemma RankDetermines(name: string)
    ensures 0 <= NameRank(name) < |NAMES| ==> NAMES[NameRank(name)] == name
  {}

  /** CUPS is told exactly what the tables and the insets say about a job, whatever its parameters. */
  lemma ToldExactly(p: PrintParams, maxResolution: int)
    ensures Tells(Options(BuildParams(p, maxResolution)), p, maxResolution)
  {
    hide TellsMedia, TellsLayout, TellsQuality, TellsMargins, BuildParams, Options;
    MediaIs(p, maxResolution);
    LayoutIs(p, maxResolution);
    QualityIs(p, maxResolution);
    MarginOptions(p, maxResolution);
    OnlyTheseNames(BuildParams(p, maxResolution));
  }

  /** Every option a printer needs to print at all. */
  ghost predicate Complete(o: seq<CupsOption>) {
    && (exists v :: CupsOption("sides", v) in o) && (exists v :: CupsOption("print-color-mode", v) in o)
    && (exists v :: CupsOption("print-scaling", v) in o) && (exists v :: CupsOption("copies", v) in o)
  }

  lemma DuplexAndColorMapped(duplex: string, color: string)
    requires Accepts(DUPLEX_TABLE, duplex) && Accepts(COLOR_TABLE, color)
    ensures exists v :: Entry(duplex, Some(v)) in DUPLEX_TABLE
    ensures exists v :: Entry(color, Some(v)) in COLOR_TABLE
  {
    var i :| 0 <= i < |DUPLEX_TABLE| && DUPLEX_TABLE[i].webos == duplex;
    assert DUPLEX_TABLE[i] == Entry(duplex, Some(DUPLEX_TABLE[i].ipp.value));
    var k :| 0 <= k < |COLOR_TABLE| && COLOR_TABLE[k].webos == color;
    assert COLOR_TABLE[k] == Entry(color, Some(COLOR_TABLE[k].ipp.value));
  }

  /** Valid parameters always give sides, colour mode, scaling and copies, and a quality unless it is Auto. */
  lemma AttributeOptions(p: PrintParams, maxResolution: int)
    requires ValidParams(p)
    ensures var o := Options(BuildParams(p, maxResolution));
            Complete(o) && (p.printQuality != "Auto" <==> exists v :: CupsOption("print-quality", v) in o)
  {
    var o := Options(BuildParams(p, maxResolution));
    ToldExactly(p, maxResolution);
    DuplexAndColorMapped(p.duplex, p.color);
    QualityToldUnlessAuto(o, p, maxResolution);
    hide BuildParams, Options, SignedDec, TellsMedia, TellsMargins, TellsQuality, Accepts;
    LayoutIsComplete(o, p);
  }

  lemma LayoutIsComplete(o: seq<CupsOption>, p: PrintParams)
    requires TellsLayout(o, p) && p.numCopies > 0
    requires exists v :: Entry(p.duplex, Some(v)) in DUPLEX_TABLE
    requires exists v :: Entry(p.color, Some(v)) in COLOR_TABLE
    ensures Complete(o)
  {
    hide SignedDec;
    var sides :| Entry(p.duplex, Some(sides)) in DUPLEX_TABLE;
    var mode :| Entry(p.color, Some(mode)) in COLOR_TABLE;
    assert CupsOption("sides", sides) in o && CupsOption("print-color-mode", mode) in o;
    assert CupsOption("print-scaling", if p.autoScale then "auto" else "none") in o;
    assert CupsOption("copies", SignedDec(p.numCopies)) in o;
  }

  lemma QualityToldUnlessAuto(o: seq<CupsOption>, p: PrintParams, maxResolution: int)
    requires TellsQuality(o, p, maxResolution) && Accepts(QUALITY_TABLE, p.printQuality)
    ensures p.printQuality != "Auto" <==> exists v :: CupsOption("print-quality", v) in o
  {
    var i :| 0 <= i < |QUALITY_TABLE| && QUALITY_TABLE[i].webos == p.printQuality;
    if i < 4 {
      assert CupsOption("print-quality", ["3", "4", "5", "5"][i]) in o;
    }
  }

  /** The exact hundredths are cut toward zero. */
  lemma HundredthsCut(x: real)
    ensures Hundredths(-x) == -Hundredths(x)
    ensures x >= 0.0 ==> Hundredths(x) as real <= x * 2540.0 < Hundredths(x) as real + 1.0
  {}

  // ------------------------------------- the margins agree with the shown region

  lemma HundredthsNear(x: real)
    ensures -1.0 < x * 2540.0 - Hundredths(x) as real < 1.0
  {}

  /** The length between two margins, in pixels before rounding. */
  function Between(extent: real, margins: int, dpi: int): real {
    Times(extent - margins as real / 2540.0, dpi as real)
  }

  /** A size shown to the client describes the length left between two margins to within 1 + dpi/1270 pixels. */
  ghost predicate Agrees(size: int, extent: real, margins: int, dpi: int) {
    var slack := 1.0 + dpi as real / 1270.0;
    -slack <= (size - 1) as real - Between(extent, margins, dpi) <= slack
  }

  /**
   * The region shown to the client against the margins sent to the printer, along one axis and for all insets:
   * they describe the same length to within 1 + dpi/1270 pixels once the raising of small insets, which only
   * the region does, is accounted for.
   */
  lemma RegionAgainstMargins(extent: real, a: real, b: real, dpi: int)
    requires dpi > 0
    ensures var slack := 1.0 + dpi as real / 1270.0;
            var raised := Times(Clamp(a) - a + (Clamp(b) - b), dpi as real);
            -slack <= (Extent(extent, a, b, dpi) - 1) as real - Between(extent, Hundredths(a) + Hundredths(b), dpi) + raised
                   <= slack
  {
    SizeOffByGap(extent, a, b, dpi);
    HundredthsNear(a);
    HundredthsNear(b);
    hide Extent, Clamp, Hundredths, Times, Between;
    var raised, lost := Clamp(a) - a + (Clamp(b) - b), a + b - (Hundredths(a) + Hundredths(b)) as real / 2540.0;
    Slack(lost, dpi as real);
    Distribute(Gap(a, b), raised, lost, dpi as real);
  }

  /** Two truncations to hundredths of a millimetre lose less than 1/1270 inch. */
  lemma Slack(e: real, d: real)
    requires d > 0.0 && -1.0 <= e * 1270.0 <= 1.0
    ensures -(d / 1270.0) <= Times(e, d) <= d / 1270.0
  {
    hide Times;
    ScaleUnit(1270.0 * e, d);
    Factor(1270.0, e, d);
  }

  /** How much more the region gives away than the margins, in inches: raised insets and truncations. */
  function Gap(a: real, b: real): real {
    Clamp(a) + Clamp(b) - (Hundredths(a) + Hundredths(b)) as real / 2540.0
  }

  lemma GapAbove(a: real, b: real)
    ensures Gap(a, b) * 1270.0 > -1.0
  {
    hide Hundredths;
    HundredthsNear(a);
    HundredthsNear(b);
  }

  /** The gap in pixels. */
  function GapPx(a: real, b: real, dpi: int): real {
    Times(Gap(a, b), dpi as real)
  }

  /** Up to one pixel of rounding the two differ by the gap. */
  lemma SizeOffByGap(extent: real, a: real, b: real, dpi: int)
    ensures -1.0 <= (Extent(extent, a, b, dpi) - 1) as real - Between(extent, Hundredths(a) + Hundredths(b), dpi)
                    + GapPx(a, b, dpi) <= 1.0
  {
    hide Extent, Clamp, Hundredths, Times;
    ExtentNearIdeal(extent, a, b, dpi);
    var m := (Hundredths(a) + Hundredths(b)) as real / 2540.0;
    Distribute(extent - m, Gap(a, b), extent - Clamp(a) - Clamp(b), dpi as real);
  }

  lemma AgreesIfGapSmall(extent: real, a: real, b: real, dpi: int)
    requires dpi > 0 && Gap(a, b) * 1270.0 <= 1.0
    ensures Agrees(Extent(extent, a, b, dpi), extent, Hundredths(a) + Hundredths(b), dpi)
  {
    hide Extent, Hundredths, Gap, Times, Between;
    SizeOffByGap(extent, a, b, dpi);
    GapAbove(a, b);
    Slack(Gap(a, b), dpi as real);
  }

  /** A resolution at which a larger gap shows. */
  function TellingDpi(a: real, b: real): int
    requires Gap(a, b) * 1270.0 > 1.0
  {
    (3.0 / (Gap(a, b) - 1.0 / 1270.0)).Floor + 1
  }

  lemma DisagreesIfGapLarge(extent: real, a: real, b: real)
    requires Gap(a, b) * 1270.0 > 1.0
    ensures var dpi := TellingDpi(a, b);
            dpi > 0 && !Agrees(Extent(extent, a, b, dpi), extent, Hundredths(a) + Hundredths(b), dpi)
  {
    var dpi := TellingDpi(a, b);
    GapPxLarge(a, b);
    SizeOffByGap(extent, a, b, dpi);
    hide Extent, Hundredths, Gap, GapPx, Between, TellingDpi, Times;
  }

  lemma GapPxLarge(a: real, b: real)
    requires Gap(a, b) * 1270.0 > 1.0
    ensures var dpi := TellingDpi(a, b); dpi > 0 && GapPx(a, b, dpi) >= dpi as real / 1270.0 + 3.0
  {
    hide Gap, Times;
    var d, e := TellingDpi(a, b) as real, Gap(a, b) - 1.0 / 1270.0;
    Telling(e, d);
    Distribute(Gap(a, b), 1.0 / 1270.0, e, d);
    Factor(1.0 / 1270.0, 1.0, d);
    One(d);
  }

  lemma Telling(e: real, d: real)
    requires e > 0.0 && d >= 3.0 / e
    ensures d > 0.0 && Times(e, d) >= 3.0
  {
    ThreeTimes(e);
    hide Times;
    Scale(3.0 / e, d, e);
    Commute(d, e);
  }

  lemma ThreeTimes(e: real)
    requires e > 0.0
    ensures Times(3.0 / e, e) == 3.0 && 3.0 / e > 0.0
  {}

  lemma Commute(x: real, y: real)
    ensures Times(x, y) == Times(y, x)
  {}

  /**
   * Along one axis the region shown and the margins sent agree at every resolution exactly if raising and
   * truncating the two insets gives away no more than 1/1270 inch.
   */
  lemma RegionMatchesExactly(extent: real, a: real, b: real)
    ensures (forall dpi | dpi > 0 :: Agrees(Extent(extent, a, b, dpi), extent, Hundredths(a) + Hundredths(b), dpi))
       <==> Gap(a, b) * 1270.0 <= 1.0
  {
    hide Extent, Hundredths, Gap, Agrees;
    if Gap(a, b) * 1270.0 <= 1.0 {
      forall dpi | dpi > 0
        ensures Agrees(Extent(extent, a, b, dpi), extent, Hundredths(a) + Hundredths(b), dpi)
      {
        AgreesIfGapSmall(extent, a, b, dpi);
      }
    } else {
      DisagreesIfGapLarge(extent, a, b);
    }
  }

  /** With every inset at least 1/8 inch nothing is raised, and the two agree. */
  lemma RegionMatchesMargins(extent: real, a: real, b: real, dpi: int)
    requires dpi > 0 && a >= DEFAULT_MARGIN && b >= DEFAULT_MARGIN
    ensures Agrees(Extent(extent, a, b, dpi), extent, Hundredths(a) + Hundredths(b), dpi)
  {
    hide Extent, Agrees, Times;
    assert Gap(a, b) * 1270.0 <= 1.0 by {
      hide Hundredths;
      HundredthsNear(a);
      HundredthsNear(b);
    }
    AgreesIfGapSmall(extent, a, b, dpi);
  }

  /** At a given resolution, raising by more than twice the tolerance shows. */
  lemma RaisedInsetsDisagree(extent: real, a: real, b: real, dpi: int)
    requires dpi > 0
    requires Times(Clamp(a) - a + (Clamp(b) - b), dpi as real) > 2.0 * (1.0 + dpi as real / 1270.0)
    ensures !Agrees(Extent(extent, a, b, dpi), extent, Hundredths(a) + Hundredths(b), dpi)
  {
    hide Extent, Hundredths, Clamp, Times, Between;
    RegionAgainstMargins(extent, a, b, dpi);
  }

  /** So it is with explicit zero insets at 300 dpi: the printer is told "no margin", the client a quarter inch less. */
  lemma SmallInsetsDisagree()
    ensures !Agrees(Extent(8.5, 0.0, 0.0, 300), 8.5, Hundredths(0.0) + Hundredths(0.0), 300)
    ensures Between(8.5, Hundredths(0.0) + Hundredths(0.0), 300) - (Extent(8.5, 0.0, 0.0, 300) - 1) as real == 75.0
  {
    assert Px(8.25, 300) == 2475;
    assert Px(0.0, 300) == 0;
  }

  // --------------------------------------------------------- the same for a whole job

  /** The area shown for a job and the margins sent for it agree on both axes. */
  ghost predicate AreaAgrees(a: Area, j: JobParams) {
    && Agrees(a.width, a.pageWidth, j.leftMargin + j.rightMargin, a.pixelUnits)
    && Agrees(a.height, a.pageHeight, j.topMargin + j.bottomMargin, a.pixelUnits)
  }

  ghost predicate SmallGaps(p: PrintParams) {
    Gap(p.leftInset, p.rightInset) * 1270.0 <= 1.0 && Gap(p.topInset, p.bottomInset) * 1270.0 <= 1.0
  }

  /** A bordered job with explicit insets that give away little agrees wherever it has an area. */
  lemma JobAgrees(media: string, p: PrintParams, units: int, maxResolution: int)
    requires !p.borderless && p.insetsSet && SmallGaps(p) && AreaOf(media, p, units).Fits?
    ensures AreaAgrees(AreaOf(media, p, units).area, BuildParams(p, maxResolution))
  {
    hide FindSheet, Extent, Raw, Hundredths, Fwd, QualityToIpp, Agrees, Gap;
    var s, d := FindSheet(MEDIA_DIMS, media).value, Dpi(units);
    AgreesIfGapSmall(s.width, p.leftInset, p.rightInset, d);
    AgreesIfGapSmall(s.height, p.topInset, p.bottomInset, d);
  }

  /** If its insets fit the sheet, it has an area at every resolution, and they all agree exactly under that condition. */
  lemma JobAgreesExactly(media: string, p: PrintParams, maxResolution: int)
    requires FindSheet(MEDIA_DIMS, media).Some? && !p.borderless && p.insetsSet
    requires var s := FindSheet(MEDIA_DIMS, media).value;
             Clamp(p.leftInset) + Clamp(p.rightInset) <= s.width && Clamp(p.topInset) + Clamp(p.bottomInset) <= s.height
    ensures forall units :: AreaOf(media, p, units).Fits?
    ensures (forall units | units > 0 :: AreaAgrees(AreaOf(media, p, units).area, BuildParams(p, maxResolution)))
       <==> SmallGaps(p)
  {
    forall units
      ensures AreaOf(media, p, units).Fits?
    {
      AcceptanceToOnePixel(media, p, units);
    }
    if SmallGaps(p) {
      forall units | units > 0
        ensures AreaAgrees(AreaOf(media, p, units).area, BuildParams(p, maxResolution))
      {
        JobAgrees(media, p, units, maxResolution);
      }
    } else {
      JobDisagrees(media, p, maxResolution);
    }
  }

  lemma JobDisagrees(media: string, p: PrintParams, maxResolution: int)
    requires FindSheet(MEDIA_DIMS, media).Some? && !p.borderless && p.insetsSet && !SmallGaps(p)
    requires forall units :: AreaOf(media, p, units).Fits?
    ensures exists units | units > 0 :: !AreaAgrees(AreaOf(media, p, units).area, BuildParams(p, maxResolution))
  {
    hide FindSheet, Extent, Raw, Hundredths, Fwd, QualityToIpp, Agrees, Gap, TellingDpi;
    var s := FindSheet(MEDIA_DIMS, media).value;
    if Gap(p.leftInset, p.rightInset) * 1270.0 > 1.0 {
      var d := TellingDpi(p.leftInset, p.rightInset);
      DisagreesIfGapLarge(s.width, p.leftInset, p.rightInset);
      assert !AreaAgrees(AreaOf(media, p, d).area, BuildParams(p, maxResolution));
    } else {
      var d := TellingDpi(p.topInset, p.bottomInset);
      DisagreesIfGapLarge(s.height, p.topInset, p.bottomInset);
      assert !AreaAgrees(AreaOf(media, p, d).area, BuildParams(p, maxResolution));
    }
  }
}
