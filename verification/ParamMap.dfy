/** The keyword tables between the webOS vocabulary and IPP, and their lookups. */
module ParamMap {
  import opened Prelude

  // ipp is None where the webOS keyword is accepted but has no IPP name.
  datatype Entry = Entry(webos: string, ipp: Option<string>)

  const MEDIA_TABLE: seq<Entry> := [
    Entry("US_Letter", Some("na_letter_8.5x11in")),
    Entry("US_Legal", Some("na_legal_8.5x14in")),
    Entry("B_Tabloid", Some("na_ledger_11x17in")),
    Entry("Super B", Some("na_super-b_13x19in")),
    Entry("ISO_A3", Some("iso_a3_297x420mm")),
    Entry("ISO_A4", Some("iso_a4_210x297mm")),
    Entry("ISO_A6", Some("iso_a6_105x148mm")),
    Entry("HAGAKI", Some("jpn_hagaki_100x148mm")),
    Entry("Photo_L", Some("oe_photo-l_3.5x5in")),
    Entry("Photo_4x6", Some("na_index-4x6_4x6in")),
    Entry("Photo_5x7", Some("na_5x7_5x7in")),
    Entry("Photo_5x7_MainTray", Some("na_5x7_5x7in")),
    Entry("Photo_8x10", Some("na_govt-letter_8x10in")),
    Entry("Photo_10x15", Some("om_photo-10x15_100x150mm")),
    Entry("Photo_11x14", None),
    Entry("Photo_4x8", None),
    Entry("Photo_4X12", None),
    Entry("Printable CD 3.5 inch", None),
    Entry("Printable CD 5 inch", None),
    Entry("None", None)
  ]

  const MEDIATYPE_TABLE: seq<Entry> := [
    Entry("Plain", Some("stationery")),
    Entry("Special", Some("stationery-fine")),
    Entry("Photo", Some("photographic")),
    Entry("Transparency", Some("transparency")),
    Entry("Iron-On", Some("iron-on")),
    Entry("Iron-On Mirror", Some("iron-on-mirror")),
    Entry("Advanced Photo", Some("photographic-high-gloss")),
    Entry("Fast Transparency", Some("transparency")),
    Entry("Brochure Glossy", Some("stationery-coated")),
    Entry("Brochure Matte", Some("stationery-heavyweight")),
    Entry("Photo Glossy", Some("photographic-glossy")),
    Entry("Photo Matte", Some("photographic-matte")),
    Entry("Premium Photo", Some("photographic-high-gloss")),
    Entry("Other Photo", Some("photographic")),
    Entry("PrintableCD", None),
    Entry("Premium Presentation", Some("stationery-heavyweight-coated")),
    Entry("None", None)
  ]

  const QUALITY_TABLE: seq<Entry> := [
    Entry("Fast", None), Entry("Normal", None), Entry("Best", None), Entry("MaxDpi", None), Entry("Auto", None)
  ]

  const DUPLEX_TABLE: seq<Entry> := [
    Entry("None", Some("one-sided")),
    Entry("Book", Some("two-sided-long-edge")),
    Entry("Tablet", Some("two-sided-short-edge"))
  ]

  const COLOR_TABLE: seq<Entry> := [
    Entry("Mono", Some("monochrome")), Entry("Color", Some("color"))
  ]

  // Tray1 and Manual each stand for two IPP names; the canonical one comes first.
  const TRAY_TABLE: seq<Entry> := [
    Entry("Unspecified", None),
    Entry("Auto", Some("auto")),
    Entry("Tray1", Some("tray-1")),
    Entry("Tray1", Some("main")),
    Entry("Tray2", Some("tray-2")),
    Entry("Photo", Some("photo")),
    Entry("Manual", Some("manual")),
    Entry("Manual", Some("by-pass-tray")),
    Entry("Manual Env", Some("envelope-manual")),
    Entry("Manual CD", None),
    Entry("Optional", Some("tray-3")),
    Entry("Continuous", Some("continuous")),
    Entry("Preload", Some("pre-printed"))
  ]

  const DRYTIME_TABLE: seq<Entry> := [
    Entry("Normal", None), Entry("Lower", None), Entry("Minimum", None)
  ]

  // ---------------------------------------------------------------- lookups

  /** What the first entry for webOS keyword k says; None when there is none or it has no IPP name. */
  function Fwd(t: seq<Entry>, k: string): Option<string> {
    if t == [] then None
    else if t[0].webos == k then t[0].ipp
    else Fwd(t[1..], k)
  }

  /** The webOS keyword of the first entry carrying IPP name p. */
  function Rev(t: seq<Entry>, p: string): Option<string> {
    if t == [] then None
    else if t[0].ipp == Some(p) then Some(t[0].webos)
    else Rev(t[1..], p)
  }

  predicate Accepts(t: seq<Entry>, k: string) {
    exists i :: 0 <= i < |t| && t[i].webos == k
  }

  ghost predicate UniqueWebos(t: seq<Entry>) {
    forall i, j :: 0 <= i < j < |t| ==> t[i].webos != t[j].webos
  }

  ghost predicate UniqueIpp(t: seq<Entry>) {
    forall i, j :: 0 <= i < j < |t| && t[i].ipp.Some? ==> t[i].ipp != t[j].ipp
  }

  method LookupFwd(t: seq<Entry>, k: Option<string>) returns (r: Option<string>)
    ensures r == if k.None? then None else Fwd(t, k.value)
  {
    if k.None? { return None; }
    for i := 0 to |t|
      invariant Fwd(t, k.value) == Fwd(t[i..], k.value)
    {
      if t[i].webos == k.value { return t[i].ipp; }
    }
    return None;
  }

  method LookupRev(t: seq<Entry>, k: Option<string>) returns (r: Option<string>)
    ensures r == if k.None? then None else Rev(t, k.value)
  {
    if k.None? { return None; }
    for i := 0 to |t|
      invariant Rev(t, k.value) == Rev(t[i..], k.value)
    {
      if t[i].ipp.Some? && t[i].ipp.value == k.value { return Some(t[i].webos); }
    }
    return None;
  }

  method InTable(t: seq<Entry>, k: Option<string>) returns (r: bool)
    ensures r <==> k.Some? && Accepts(t, k.value)
  {
    if k.None? { return false; }
    for i := 0 to |t|
      invariant forall j :: 0 <= j < i ==> t[j].webos != k.value
    {
      if t[i].webos == k.value { return true; }
    }
    return false;
  }

  /** Fwd reads the lowest-numbered entry for the keyword. */
  lemma FwdIsFirstMatch(t: seq<Entry>, k: string)
    ensures !Accepts(t, k) ==> Fwd(t, k) == None
    ensures forall i :: 0 <= i < |t| && t[i].webos == k && (forall j :: 0 <= j < i ==> t[j].webos != k)
              ==> Fwd(t, k) == t[i].ipp
  {
    forall i | 0 <= i < |t| && t[i].webos == k && (forall j :: 0 <= j < i ==> t[j].webos != k)
      ensures Fwd(t, k) == t[i].ipp
    {
      FwdAt(t, k, i);
    }
    if !Accepts(t, k) { FwdNone(t, k); }
  }

  lemma {:induction false} FwdAt(t: seq<Entry>, k: string, i: nat)
    requires i < |t| && t[i].webos == k && forall j :: 0 <= j < i ==> t[j].webos != k
    ensures Fwd(t, k) == t[i].ipp
  {
    if i > 0 {
      assert forall j :: 0 <= j < i - 1 ==> t[1..][j] == t[j + 1];
      FwdAt(t[1..], k, i - 1);
    }
  }

  lemma {:induction false} FwdNone(t: seq<Entry>, k: string)
    requires forall i :: 0 <= i < |t| ==> t[i].webos != k
    ensures Fwd(t, k) == None
  {
    if t != [] { FwdNone(t[1..], k); }
  }

  /** The first entry of keyword k carries IPP name v. */
  ghost predicate FirstEntry(t: seq<Entry>, k: string, v: string) {
    exists i :: 0 <= i < |t| && t[i] == Entry(k, Some(v)) && forall j :: 0 <= j < i ==> t[j].webos != k
  }

  lemma {:induction false} FwdSays(t: seq<Entry>, k: string, v: string)
    ensures Fwd(t, k) == Some(v) <==> FirstEntry(t, k, v)
  {
    if t == [] {
    } else if t[0].webos == k {
      if Fwd(t, k) == Some(v) { assert t[0] == Entry(k, Some(v)); }
    } else {
      var tail := t[1..];
      FwdSays(tail, k, v);
      assert forall j :: 0 < j < |t| ==> t[j] == tail[j - 1];
      if FirstEntry(tail, k, v) {
        var i :| 0 <= i < |tail| && tail[i] == Entry(k, Some(v)) && forall j :: 0 <= j < i ==> tail[j].webos != k;
        assert t[i + 1] == Entry(k, Some(v));
      }
      if FirstEntry(t, k, v) {
        var i :| 0 <= i < |t| && t[i] == Entry(k, Some(v)) && forall j :: 0 <= j < i ==> t[j].webos != k;
        assert tail[i - 1] == Entry(k, Some(v));
        assert forall j :: 0 <= j < i - 1 ==> tail[j] == t[j + 1];
      }
    }
  }

  /** Where no keyword occurs twice, a forward lookup says what the table says. */
  lemma FwdSaysUnique(t: seq<Entry>, k: string, v: string)
    requires UniqueWebos(t)
    ensures Fwd(t, k) == Some(v) <==> Entry(k, Some(v)) in t
  {
    FwdSays(t, k, v);
    if Entry(k, Some(v)) in t {
      var i :| 0 <= i < |t| && t[i] == Entry(k, Some(v));
      assert forall j :: 0 <= j < i ==> t[j].webos != k;
    }
  }

  ghost predicate NoneBefore(t: seq<Entry>, p: string, i: int) {
    forall j :: 0 <= j < i && j < |t| ==> t[j].ipp != Some(p)
  }

  /** Rev reads the lowest-numbered entry for the IPP name, and there is none exactly when no entry carries it. */
  lemma {:induction false} RevIsFirstMatch(t: seq<Entry>, p: string)
    ensures Rev(t, p) == None <==> forall i :: 0 <= i < |t| ==> t[i].ipp != Some(p)
    ensures Rev(t, p).Some? ==>
              exists i :: 0 <= i < |t| && t[i] == Entry(Rev(t, p).value, Some(p)) && NoneBefore(t, p, i)
  {
    if t == [] {
    } else if t[0].ipp == Some(p) {
      assert t[0] == Entry(Rev(t, p).value, Some(p));
    } else {
      var tail := t[1..];
      RevIsFirstMatch(tail, p);
      assert forall j :: 0 < j < |t| ==> t[j] == tail[j - 1];
      if Rev(tail, p).Some? {
        var i :| 0 <= i < |tail| && tail[i] == Entry(Rev(t, p).value, Some(p)) && NoneBefore(tail, p, i);
        assert t[i + 1] == tail[i];
        assert NoneBefore(tail, p, i);
        assert NoneBefore(t, p, i + 1);
      }
    }
  }

  // ------------------------------------------------------------ round trips

  /** One entry per webOS keyword makes forward after reverse the identity. */
  lemma FwdAfterRev(t: seq<Entry>, p: string)
    requires UniqueWebos(t) && Rev(t, p).Some?
    ensures Accepts(t, Rev(t, p).value) && Fwd(t, Rev(t, p).value) == Some(p)
  {
    RevIsFirstMatch(t, p);
    var w := Rev(t, p).value;
    var i :| 0 <= i < |t| && t[i] == Entry(w, Some(p));
    FwdIsFirstMatch(t, w);
  }

  /** One entry per IPP name makes reverse after forward the identity, wherever forward gives a name. */
  lemma RevAfterFwd(t: seq<Entry>, w: string)
    requires UniqueIpp(t) && Fwd(t, w).Some?
    ensures Rev(t, Fwd(t, w).value) == Some(w)
  {
    var p := Fwd(t, w).value;
    FwdEntry(t, w);
    RevIsFirstMatch(t, p);
  }

  lemma {:induction false} FwdEntry(t: seq<Entry>, w: string)
    requires Fwd(t, w).Some?
    ensures Entry(w, Fwd(t, w)) in t
  {
    if t[0].webos == w {
      assert t[0] == Entry(w, Fwd(t, w));
    } else {
      FwdEntry(t[1..], w);
    }
  }

  // Positions of the keywords, written out so that distinctness of the long tables is cheap to check.

  function MediaRank(s: string): int {
    match s
    case "US_Letter" => 0 case "US_Legal" => 1 case "B_Tabloid" => 2 case "Super B" => 3
    case "ISO_A3" => 4 case "ISO_A4" => 5 case "ISO_A6" => 6 case "HAGAKI" => 7
    case "Photo_L" => 8 case "Photo_4x6" => 9 case "Photo_5x7" => 10 case "Photo_5x7_MainTray" => 11
    case "Photo_8x10" => 12 case "Photo_10x15" => 13 case "Photo_11x14" => 14 case "Photo_4x8" => 15
    case "Photo_4X12" => 16 case "Printable CD 3.5 inch" => 17 case "Printable CD 5 inch" => 18
    case "None" => 19 case _ => -1
  }

  function MediaTypeRank(s: string): int {
    match s
    case "Plain" => 0 case "Special" => 1 case "Photo" => 2 case "Transparency" => 3 case "Iron-On" => 4
    case "Iron-On Mirror" => 5 case "Advanced Photo" => 6 case "Fast Transparency" => 7
    case "Brochure Glossy" => 8 case "Brochure Matte" => 9 case "Photo Glossy" => 10 case "Photo Matte" => 11
    case "Premium Photo" => 12 case "Other Photo" => 13 case "PrintableCD" => 14
    case "Premium Presentation" => 15 case "None" => 16 case _ => -1
  }

  function TrayRank(s: Option<string>): int {
    if s.None? then -2 else
    match s.value
    case "auto" => 1 case "tray-1" => 2 case "main" => 3 case "tray-2" => 4 case "photo" => 5 case "manual" => 6
    case "by-pass-tray" => 7 case "envelope-manual" => 8 case "tray-3" => 10 case "continuous" => 11
    case "pre-printed" => 12 case _ => -1
  }

  lemma MediaKeywordsUnique()
    ensures UniqueWebos(MEDIA_TABLE)
  {
    assert forall i :: 0 <= i < |MEDIA_TABLE| ==> MediaRank(MEDIA_TABLE[i].webos) == i;
  }

  lemma MediaTypeKeywordsUnique()
    ensures UniqueWebos(MEDIATYPE_TABLE)
  {
    assert forall i :: 0 <= i < |MEDIATYPE_TABLE| ==> MediaTypeRank(MEDIATYPE_TABLE[i].webos) == i;
  }

  lemma TrayNamesUnique()
    ensures UniqueIpp(TRAY_TABLE)
  {
    assert forall i :: 0 <= i < |TRAY_TABLE| && TRAY_TABLE[i].ipp.Some? ==> TrayRank(TRAY_TABLE[i].ipp) == i;
  }

  lemma DuplexAndColorKeywordsUnique()
    ensures UniqueWebos(DUPLEX_TABLE) && UniqueWebos(COLOR_TABLE)
  {}

  /** Forward after reverse over the aliased tray table: the identity on every name but the two aliases. */
  lemma TrayFwdAfterRev(p: string)
    requires Rev(TRAY_TABLE, p).Some?
    ensures Fwd(TRAY_TABLE, Rev(TRAY_TABLE, p).value) == Some(CanonicalTray(p))
  {
    RevIsFirstMatch(TRAY_TABLE, p);
    var i :| 0 <= i < |TRAY_TABLE| && TRAY_TABLE[i] == Entry(Rev(TRAY_TABLE, p).value, Some(p));
    TrayFwdAt(i);
    TrayCanonicalAt(i);
  }

  function CanonicalTray(p: string): string {
    if p == "main" then "tray-1" else if p == "by-pass-tray" then "manual" else p
  }

  lemma TrayCanonicalAt(i: int)
    requires 0 <= i < |TRAY_TABLE| && TRAY_TABLE[i].ipp.Some?
    ensures TRAY_TABLE[if i == 3 || i == 7 then i - 1 else i].ipp == Some(CanonicalTray(TRAY_TABLE[i].ipp.value))
  {
    assert TrayRank(TRAY_TABLE[i].ipp) == i;
  }

  lemma TrayFwdAt(i: int)
    requires 0 <= i < |TRAY_TABLE|
    ensures Fwd(TRAY_TABLE, TRAY_TABLE[i].webos) == TRAY_TABLE[if i == 3 || i == 7 then i - 1 else i].ipp
  {
    TrayKeywordRanks();
    FwdIsFirstMatch(TRAY_TABLE, TRAY_TABLE[i].webos);
    if i == 3 {
      assert TRAY_TABLE[2].webos == TRAY_TABLE[3].webos;
    } else if i == 7 {
      assert TRAY_TABLE[6].webos == TRAY_TABLE[7].webos;
    }
  }

  lemma TrayKeywordRanks()
    ensures forall j :: 0 <= j < |TRAY_TABLE| ==>
              TrayKeywordRank(TRAY_TABLE[j].webos) == if j == 3 || j == 7 then j - 1 else j
  {}

  function TrayKeywordRank(s: string): int {
    match s
    case "Unspecified" => 0 case "Auto" => 1 case "Tray1" => 2 case "Tray2" => 4 case "Photo" => 5
    case "Manual" => 6 case "Manual Env" => 8 case "Manual CD" => 9 case "Optional" => 10
    case "Continuous" => 11 case "Preload" => 12 case _ => -1
  }

  // ---------------------------------------------------------------- quality

  /** print-quality: 3 draft, 4 normal, 5 high, 0 for "leave it out". */
  function QualityToIpp(k: string): int {
    if k == "Fast" then 3 else if k == "Normal" then 4 else if k == "Best" then 5 else if k == "MaxDpi" then 5 else 0
  }

  function QualityFromIpp(q: int): string {
    if q == 3 then "Fast" else if q == 4 then "Normal" else if q == 5 then "Best" else "Auto"
  }

  /** Among accepted keywords, only MaxDpi is lost by the trip through the IPP enum. */
  lemma QualityRoundTrip(k: string)
    requires Accepts(QUALITY_TABLE, k)
    ensures QualityFromIpp(QualityToIpp(k)) == k <==> k != "MaxDpi"
    ensures QualityToIpp(k) in {0, 3, 4, 5} && (QualityToIpp(k) == 0 <==> k == "Auto")
  {
    var i :| 0 <= i < |QUALITY_TABLE| && QUALITY_TABLE[i].webos == k;
  }

  // -------------------------------------------------------------- job state

  method JobStateToWebos(ippState: int) returns (printerState: string, jobStatus: Option<string>)
    ensures (printerState, jobStatus) == JobState(ippState)
  {
    jobStatus := None;
    match ippState {
      case 3 => printerState := "QUEUED";
      case 4 => printerState := "QUEUED";
      case 5 => printerState := "RUNNING";
      case 6 => printerState := "BLOCKED";
      case 7 => printerState := "DONE"; jobStatus := Some("Cancelled");
      case 8 => printerState := "DONE"; jobStatus := Some("Error");
      case 9 => printerState := "DONE"; jobStatus := Some("Success");
      case _ => printerState := "QUEUED";
    }
  }

  /** IPP job-state (section 5.3.7 of RFC 8011) to printer state and job status. */
  function JobState(ippState: int): (string, Option<string>) {
    if ippState == 5 then ("RUNNING", None)
    else if ippState == 6 then ("BLOCKED", None)
    else if ippState == 7 then ("DONE", Some("Cancelled"))
    else if ippState == 8 then ("DONE", Some("Error"))
    else if ippState == 9 then ("DONE", Some("Success"))
    else ("QUEUED", None)
  }

  // ---------------------------------------------------------------- values in use

  /** The states of IPP jobs from pending to completed, and anything else. */
  lemma StateValues(n: int)
    ensures JobState(3) == JobState(4) == ("QUEUED", None)
    ensures JobState(5) == ("RUNNING", None) && JobState(6) == ("BLOCKED", None)
    ensures JobState(7) == ("DONE", Some("Cancelled")) && JobState(8) == ("DONE", Some("Error"))
    ensures JobState(9) == ("DONE", Some("Success"))
    ensures n < 3 || n > 9 ==> JobState(n) == ("QUEUED", None)
  {}

  lemma QualityValues()
    ensures QualityToIpp("Fast") == 3 && QualityToIpp("Normal") == 4 && QualityToIpp("Best") == 5
    ensures QualityToIpp("MaxDpi") == 5 && QualityToIpp("Auto") == 0
    ensures QualityFromIpp(3) == "Fast" && QualityFromIpp(4) == "Normal" && QualityFromIpp(5) == "Best"
    ensures QualityFromIpp(99) == "Auto"
  {}
}
