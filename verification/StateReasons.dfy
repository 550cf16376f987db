/** Translation of printer-state-reasons, which may carry a severity suffix (section 5.4.12 of RFC 8011). */
module StateReasons {
  import opened Prelude

  datatype Blocked = OutOfPaper | Jammed | DoorOpen | SupplyEmpty | SupplyLow | ServiceRequest | UnableToConnect

  datatype Stem = Stem(text: string, means: Blocked)

  const STEMS: seq<Stem> := [
    Stem("media-empty", OutOfPaper),
    Stem("media-needed", OutOfPaper),
    Stem("input-media-supply-empty", OutOfPaper),
    Stem("media-jam", Jammed),
    Stem("jam", Jammed),
    Stem("door-open", DoorOpen),
    Stem("cover-open", DoorOpen),
    Stem("interlock-open", DoorOpen),
    Stem("marker-supply-empty", SupplyEmpty),
    Stem("toner-empty", SupplyEmpty),
    Stem("marker-supply-low", SupplyLow),
    Stem("toner-low", SupplyLow),
    Stem("service-request", ServiceRequest),
    Stem("moving-to-paused", ServiceRequest),
    Stem("paused", ServiceRequest),
    Stem("offline", UnableToConnect),
    Stem("shutdown", UnableToConnect),
    Stem("connecting-to-device", UnableToConnect),
    Stem("timed-out", UnableToConnect)
  ]

  predicate StemIs(reason: string, s: string) {
    IsPrefix(s, reason) && (|reason| == |s| || reason[|s|] == '-')
  }

  function Keyword(b: Blocked, isToner: bool): string {
    match b
    case OutOfPaper => "Out_Of_Paper"
    case Jammed => "Jammed"
    case DoorOpen => "Door_Open"
    case SupplyEmpty => if isToner then "Out_Of_Toner" else "Out_Of_Ink"
    case SupplyLow => if isToner then "Low_On_Toner" else "Low_On_Ink"
    case ServiceRequest => "Service_Request"
    case UnableToConnect => "Unable_To_Connect"
  }

  /** The first stem that matches decides, as in the chain of tests. */
  function FirstStem(stems: seq<Stem>, reason: string): Option<Blocked> {
    if stems == [] then None
    else if StemIs(reason, stems[0].text) then Some(stems[0].means)
    else FirstStem(stems[1..], reason)
  }

  function ReasonToWebos(reason: string, isToner: bool): Option<string> {
    match FirstStem(STEMS, reason)
    case None => None
    case Some(b) => Some(Keyword(b, isToner))
  }

  /** The blockedReasons of a status event: recognised reasons, in the order CUPS listed them. */
  function BlockedReasons(reasons: seq<string>, isToner: bool): seq<string> {
    if reasons == [] then []
    else
      var rest := BlockedReasons(reasons[..|reasons| - 1], isToner);
      match ReasonToWebos(reasons[|reasons| - 1], isToner)
      case None => rest
      case Some(k) => rest + [k]
  }

  /** Which stem a text can match, read off a few of its characters. */
  function StemRank(s: string): int {
    if |s| < 3 then -1
    else match s[0]
      case 'm' =>
        if s[1] == 'e' then if |s| <= 6 then -1 else if s[6] == 'e' then 0 else if s[6] == 'n' then 1 else 3
        else if s[1] == 'a' then if |s| <= 14 then -1 else if s[14] == 'e' then 8 else 10
        else 13
      case 'i' => if s[2] == 'p' then 2 else 7
      case 'j' => 4
      case 'd' => 5
      case 'c' => if s[2] == 'v' then 6 else 17
      case 't' => if s[1] == 'i' then 18 else if |s| <= 6 then -1 else if s[6] == 'e' then 9 else 11
      case 's' => if s[1] == 'e' then 12 else 16
      case 'p' => 14
      case 'o' => 15
      case _ => -1
  }

  lemma StemRankAt(i: int)
    requires 0 <= i < |STEMS|
    ensures StemRank(STEMS[i].text) == i
  {
    if i < 5 { StemRanksFrom0(); } else if i < 10 { StemRanksFrom5(); } else if i < 15 { StemRanksFrom10(); } else { StemRanksFrom15(); }
  }

  lemma StemRanksFrom0()
    ensures forall i :: 0 <= i < 5 ==> StemRank(STEMS[i].text) == i
  {}

  lemma StemRanksFrom5()
    ensures forall i :: 5 <= i < 10 ==> StemRank(STEMS[i].text) == i
  {}

  lemma StemRanksFrom10()
    ensures forall i :: 10 <= i < 15 ==> StemRank(STEMS[i].text) == i
  {}

  lemma StemRanksFrom15()
    ensures forall i :: 15 <= i < 19 ==> StemRank(STEMS[i].text) == i
  {}

  lemma RankOfLonger(s: string, reason: string)
    requires IsPrefix(s, reason) && StemRank(s) >= 0
    ensures StemRank(reason) == StemRank(s)
  {
    assert forall k :: 0 <= k < |s| ==> reason[k] == s[k];
  }

  /** The stem tests are mutually exclusive: no reason passes two of them. */
  lemma AtMostOneStem(reason: string, i: int, j: int)
    requires 0 <= i < |STEMS| && 0 <= j < |STEMS|
    requires StemIs(reason, STEMS[i].text) && StemIs(reason, STEMS[j].text)
    ensures i == j
  {
    StemRankAt(i);
    StemRankAt(j);
    RankOfLonger(STEMS[i].text, reason);
    RankOfLonger(STEMS[j].text, reason);
  }

  /** No reason passes the tests of two of these stems. */
  ghost predicate Exclusive(stems: seq<Stem>) {
    forall reason, a, b | a in stems && b in stems :: StemIs(reason, a.text) && StemIs(reason, b.text) ==> a == b
  }

  lemma StemsExclusive()
    ensures Exclusive(STEMS)
  {
    forall reason, a, b | a in STEMS && b in STEMS && StemIs(reason, a.text) && StemIs(reason, b.text)
      ensures a == b
    {
      var i :| 0 <= i < |STEMS| && STEMS[i] == a;
      var j :| 0 <= j < |STEMS| && STEMS[j] == b;
      AtMostOneStem(reason, i, j);
    }
  }

  lemma {:induction false} FirstStemMatches(stems: seq<Stem>, reason: string)
    ensures FirstStem(stems, reason).None? ==> forall s :: s in stems ==> !StemIs(reason, s.text)
    ensures FirstStem(stems, reason).Some? ==>
              exists s :: s in stems && StemIs(reason, s.text) && s.means == FirstStem(stems, reason).value
  {
    if stems != [] {
      assert stems == [stems[0]] + stems[1..];
      FirstStemMatches(stems[1..], reason);
      if StemIs(reason, stems[0].text) { assert stems[0] in stems; }
    }
  }

  lemma AnyMatchDecides(stems: seq<Stem>, reason: string, s: Stem)
    requires Exclusive(stems) && s in stems && StemIs(reason, s.text)
    ensures FirstStem(stems, reason) == Some(s.means)
  {
    FirstStemMatches(stems, reason);
  }

  /** The order of the tests is irrelevant: any list of the same stems gives the same translation. */
  lemma OrderIrrelevant(stems: seq<Stem>, reason: string)
    requires forall s :: s in stems <==> s in STEMS
    ensures FirstStem(stems, reason) == FirstStem(STEMS, reason)
  {
    StemsExclusive();
    SameStems(STEMS, stems, reason);
  }

  lemma SameStems(a: seq<Stem>, b: seq<Stem>, reason: string)
    requires Exclusive(a) && forall s :: s in a <==> s in b
    ensures FirstStem(a, reason) == FirstStem(b, reason)
  {
    FirstStemMatches(a, reason);
    FirstStemMatches(b, reason);
  }

  /** A severity suffix never changes the translation of a recognised reason. */
  lemma SuffixKeepsTranslation(reason: string, suffix: string, isToner: bool)
    requires ReasonToWebos(reason, isToner).Some?
    ensures ReasonToWebos(reason + "-" + suffix, isToner) == ReasonToWebos(reason, isToner)
  {
    StemsExclusive();
    SuffixKeepsStem(STEMS, reason, suffix);
  }

  lemma SuffixKeepsStem(stems: seq<Stem>, reason: string, suffix: string)
    requires Exclusive(stems) && FirstStem(stems, reason).Some?
    ensures FirstStem(stems, reason + "-" + suffix) == FirstStem(stems, reason)
  {
    FirstStemMatches(stems, reason);
    var s :| s in stems && StemIs(reason, s.text) && s.means == FirstStem(stems, reason).value;
    var longer := reason + "-" + suffix;
    assert longer[..|s.text|] == reason[..|s.text|];
    AnyMatchDecides(stems, longer, s);
  }

  // --------------------------------------------------------------- what is translated

  /** The reason is this stem, alone or followed by a hyphen and more. */
  predicate Extends(reason: string, stem: string) {
    reason == stem || IsPrefix(stem + "-", reason)
  }

  /** This stem stands for keyword k, with ink or with toner. */
  predicate Stands(s: Stem, isToner: bool, k: string) {
    || (s.means == OutOfPaper && k == "Out_Of_Paper") || (s.means == Jammed && k == "Jammed")
    || (s.means == DoorOpen && k == "Door_Open") || (s.means == ServiceRequest && k == "Service_Request")
    || (s.means == UnableToConnect && k == "Unable_To_Connect")
    || (s.means == SupplyEmpty && if isToner then k == "Out_Of_Toner" else k == "Out_Of_Ink")
    || (s.means == SupplyLow && if isToner then k == "Low_On_Toner" else k == "Low_On_Ink")
  }

  /** A reason is reported as k exactly if it extends a stem that stands for k. */
  lemma ReasonExactly(reason: string, isToner: bool, k: string)
    ensures ReasonToWebos(reason, isToner) == Some(k)
       <==> exists s :: s in STEMS && Extends(reason, s.text) && Stands(s, isToner, k)
  {
    StemsExclusive();
    FirstStemMatches(STEMS, reason);
    hide STEMS, FirstStem, Exclusive, Stands;
    if ReasonToWebos(reason, isToner) == Some(k) {
      var s :| s in STEMS && StemIs(reason, s.text) && s.means == FirstStem(STEMS, reason).value;
      StemMeansExtends(reason, s.text);
      KeywordStands(s, isToner, k);
    }
    if s :| s in STEMS && Extends(reason, s.text) && Stands(s, isToner, k) {
      StemMeansExtends(reason, s.text);
      AnyMatchDecides(STEMS, reason, s);
      KeywordStands(s, isToner, k);
    }
  }

  lemma StemMeansExtends(reason: string, stem: string)
    ensures StemIs(reason, stem) <==> Extends(reason, stem)
  {
    if StemIs(reason, stem) {
      if |reason| == |stem| { assert reason == reason[..|stem|]; } else { assert reason[..|stem| + 1] == stem + "-"; }
    }
    if IsPrefix(stem + "-", reason) {
      assert reason[..|stem|] == reason[..|stem| + 1][..|stem|] == stem;
      assert reason[|stem|] == (stem + "-")[|stem|];
    }
  }

  lemma KeywordStands(s: Stem, isToner: bool, k: string)
    ensures Stands(s, isToner, k) <==> k == Keyword(s.means, isToner)
  {}

  /** The reasons of a list are those of its parts, in order; one that is not recognised adds nothing. */
  lemma {:induction false} ReasonsConcat(a: seq<string>, b: seq<string>, isToner: bool)
    ensures BlockedReasons(a + b, isToner) == BlockedReasons(a, isToner) + BlockedReasons(b, isToner)
  {
    if b == [] {
      assert a + b == a;
    } else {
      hide ReasonToWebos;
      assert (a + b)[..|a + b| - 1] == a + b[..|b| - 1];
      ReasonsConcat(a, b[..|b| - 1], isToner);
    }
  }

  lemma OneReason(reason: string, isToner: bool)
    ensures BlockedReasons([reason], isToner)
            == if ReasonToWebos(reason, isToner).Some? then [ReasonToWebos(reason, isToner).value] else []
  {
    hide ReasonToWebos;
    assert [reason][..0] == [];
  }
}
