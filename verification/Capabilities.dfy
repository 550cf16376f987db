/** The value lists of printers/getCapabilities: mapped, filtered and free of duplicates. */
module Capabilities {
  import opened Prelude
  import opened ParamMap

  /** The webOS keywords of the advertised values, in order, without those that have none. */
  function Mapped(t: seq<Entry>, values: seq<string>): seq<string> {
    if values == [] then []
    else
      var rest := Mapped(t, values[..|values| - 1]);
      match Rev(t, values[|values| - 1])
      case None => rest
      case Some(w) => rest + [w]
  }

  /** Drops every element that already occurred further left. */
  function FirstOccurrences(xs: seq<string>): seq<string> {
    if xs == [] then []
    else
      var rest := FirstOccurrences(xs[..|xs| - 1]);
      if xs[|xs| - 1] in xs[..|xs| - 1] then rest else rest + [xs[|xs| - 1]]
  }

  method AppendMappedList(t: seq<Entry>, values: seq<string>) returns (arr: seq<string>)
    ensures arr == FirstOccurrences(Mapped(t, values))
  {
    arr := [];
    var seen: set<string> := {};
    for i := 0 to |values|
      invariant arr == FirstOccurrences(Mapped(t, values[..i]))
      invariant forall w :: w in seen <==> w in Mapped(t, values[..i])
    {
      assert values[..i + 1][..i] == values[..i];
      var webos := LookupRev(t, Some(values[i]));
      if webos.Some? {
        ghost var all := Mapped(t, values[..i]) + [webos.value];
        assert all[..|all| - 1] == Mapped(t, values[..i]);
        if webos.value !in seen {
          seen := seen + {webos.value};
          arr := arr + [webos.value];
        }
      }
    }
    assert values[..|values|] == values;
  }

  lemma {:induction false} MappedElements(t: seq<Entry>, values: seq<string>, w: string)
    ensures w in Mapped(t, values) <==> exists v :: v in values && Rev(t, v) == Some(w)
  {
    if values != [] {
      var init, last := values[..|values| - 1], values[|values| - 1];
      assert values == init + [last];
      MappedElements(t, init, w);
      if w in Mapped(t, init) {
        var v :| v in init && Rev(t, v) == Some(w);
        assert v in values;
      } else if Rev(t, last) == Some(w) {
        assert last in values;
      } else {
        assert forall v :: v in values ==> v in init || v == last;
      }
    }
  }

  ghost predicate FirstAt(xs: seq<string>, x: string, i: int) {
    0 <= i < |xs| && xs[i] == x && x !in xs[..i]
  }

  /** FirstOccurrences keeps exactly the elements, each once, in the order they first occur. */
  lemma {:induction false} FirstOccurrencesIsOrderedSet(xs: seq<string>)
    ensures Distinct(FirstOccurrences(xs))
    ensures forall x :: x in FirstOccurrences(xs) <==> x in xs
    ensures forall a, b, i, j | 0 <= a < b < |FirstOccurrences(xs)| ::
              FirstAt(xs, FirstOccurrences(xs)[a], i) && FirstAt(xs, FirstOccurrences(xs)[b], j) ==> i < j
  {
    if xs != [] {
      var init, last := xs[..|xs| - 1], xs[|xs| - 1];
      assert xs == init + [last];
      FirstOccurrencesIsOrderedSet(init);
      var out := FirstOccurrences(xs);
      forall a, b, i, j | 0 <= a < b < |out| && FirstAt(xs, out[a], i) && FirstAt(xs, out[b], j)
        ensures i < j
      {
        assert out[a] in init;
        assert i < |init| by {
          var k :| 0 <= k < |init| && init[k] == out[a];
          assert xs[k] == out[a];
        }
        assert xs[..i] == init[..i] && FirstAt(init, out[a], i);
        if j < |init| {
          assert xs[..j] == init[..j] && FirstAt(init, out[b], j);
        }
      }
    }
  }

  /** Whatever the table, every value offered to a client is accepted back by editPrintParams. */
  lemma OfferedIsAccepted(t: seq<Entry>, values: seq<string>, w: string)
    requires w in FirstOccurrences(Mapped(t, values))
    ensures Accepts(t, w)
  {
    FirstOccurrencesIsOrderedSet(Mapped(t, values));
    MappedElements(t, values, w);
    var v :| v in values && Rev(t, v) == Some(w);
    RevIsFirstMatch(t, v);
    var i :| 0 <= i < |t| && t[i] == Entry(w, Some(v)) && NoneBefore(t, v, i);
    assert t[i].webos == w;
  }

  /** So it is for all three lists of a printer's capabilities. */
  lemma CapabilitiesAccepted(sizes: seq<string>, types: seq<string>, trays: seq<string>, w: string)
    ensures w in FirstOccurrences(Mapped(MEDIA_TABLE, sizes)) ==> Accepts(MEDIA_TABLE, w)
    ensures w in FirstOccurrences(Mapped(MEDIATYPE_TABLE, types)) ==> Accepts(MEDIATYPE_TABLE, w)
    ensures w in FirstOccurrences(Mapped(TRAY_TABLE, trays)) ==> Accepts(TRAY_TABLE, w)
  {
    hide FirstOccurrences, Mapped, Accepts;
    if w in FirstOccurrences(Mapped(MEDIA_TABLE, sizes)) { OfferedIsAccepted(MEDIA_TABLE, sizes, w); }
    if w in FirstOccurrences(Mapped(MEDIATYPE_TABLE, types)) { OfferedIsAccepted(MEDIATYPE_TABLE, types, w); }
    if w in FirstOccurrences(Mapped(TRAY_TABLE, trays)) { OfferedIsAccepted(TRAY_TABLE, trays, w); }
  }

  /** With unique keywords, turning an offered value into IPP again gives one the printer advertised. */
  lemma OfferedValuesPrint(t: seq<Entry>, values: seq<string>, w: string)
    requires UniqueWebos(t)
    requires w in FirstOccurrences(Mapped(t, values))
    ensures Accepts(t, w) && Fwd(t, w).Some? && Fwd(t, w).value in values
  {
    OfferedIsAccepted(t, values, w);
    FirstOccurrencesIsOrderedSet(Mapped(t, values));
    MappedElements(t, values, w);
    var v :| v in values && Rev(t, v) == Some(w);
    FwdAfterRev(t, v);
  }

  lemma OfferedMediaPrint(sizes: seq<string>, types: seq<string>)
    ensures forall w :: w in FirstOccurrences(Mapped(MEDIA_TABLE, sizes)) ==>
              Accepts(MEDIA_TABLE, w) && Fwd(MEDIA_TABLE, w).Some? && Fwd(MEDIA_TABLE, w).value in sizes
    ensures forall w :: w in FirstOccurrences(Mapped(MEDIATYPE_TABLE, types)) ==>
              Accepts(MEDIATYPE_TABLE, w) && Fwd(MEDIATYPE_TABLE, w).Some? && Fwd(MEDIATYPE_TABLE, w).value in types
  {
    MediaKeywordsUnique();
    MediaTypeKeywordsUnique();
    forall w | w in FirstOccurrences(Mapped(MEDIA_TABLE, sizes))
      ensures Accepts(MEDIA_TABLE, w) && Fwd(MEDIA_TABLE, w).Some? && Fwd(MEDIA_TABLE, w).value in sizes
    {
      OfferedValuesPrint(MEDIA_TABLE, sizes, w);
    }
    forall w | w in FirstOccurrences(Mapped(MEDIATYPE_TABLE, types))
      ensures Accepts(MEDIATYPE_TABLE, w) && Fwd(MEDIATYPE_TABLE, w).Some? && Fwd(MEDIATYPE_TABLE, w).value in types
    {
      OfferedValuesPrint(MEDIATYPE_TABLE, types, w);
    }
  }

  /** Where forward after reverse only normalises, offers print exactly when the normal forms are advertised. */
  lemma OfferedNormalForms(t: seq<Entry>, values: seq<string>, normal: string -> string)
    requires forall v :: Rev(t, v).Some? ==> Fwd(t, Rev(t, v).value) == Some(normal(v))
    ensures (forall w :: w in FirstOccurrences(Mapped(t, values)) ==> Fwd(t, w).Some? && Fwd(t, w).value in values)
       <==> (forall v :: v in values && Rev(t, v).Some? ==> normal(v) in values)
  {
    var offered := FirstOccurrences(Mapped(t, values));
    FirstOccurrencesIsOrderedSet(Mapped(t, values));
    if forall w :: w in offered ==> Fwd(t, w).Some? && Fwd(t, w).value in values {
      forall v | v in values && Rev(t, v).Some?
        ensures normal(v) in values
      {
        MappedElements(t, values, Rev(t, v).value);
        assert Rev(t, v).value in offered;
      }
    }
    if forall v :: v in values && Rev(t, v).Some? ==> normal(v) in values {
      forall w | w in offered
        ensures Fwd(t, w).Some? && Fwd(t, w).value in values
      {
        MappedElements(t, values, w);
        var v :| v in values && Rev(t, v) == Some(w);
      }
    }
  }

  /**
   * Offered trays are accepted back too, but they fold two IPP names onto one keyword, so that last claim fails
   * for them. It holds for every offered
   * tray exactly when a printer advertising an alias advertises the canonical name too.
   */
  lemma OfferedTraysPrint(values: seq<string>)
    ensures forall w :: w in FirstOccurrences(Mapped(TRAY_TABLE, values)) ==> Accepts(TRAY_TABLE, w)
    ensures (forall w :: w in FirstOccurrences(Mapped(TRAY_TABLE, values)) ==>
               Fwd(TRAY_TABLE, w).Some? && Fwd(TRAY_TABLE, w).value in values)
       <==> ("main" in values ==> "tray-1" in values) && ("by-pass-tray" in values ==> "manual" in values)
  {
    forall v | Rev(TRAY_TABLE, v).Some?
      ensures Fwd(TRAY_TABLE, Rev(TRAY_TABLE, v).value) == Some(CanonicalTray(v))
    {
      TrayFwdAfterRev(v);
    }
    forall w | w in FirstOccurrences(Mapped(TRAY_TABLE, values))
      ensures Accepts(TRAY_TABLE, w)
    {
      OfferedIsAccepted(TRAY_TABLE, values, w);
    }
    OfferedNormalForms(TRAY_TABLE, values, CanonicalTray);
    AliasesOffered();
    assert CanonicalTray("main") == "tray-1" && CanonicalTray("by-pass-tray") == "manual";
  }

  /** A printer that only advertises "main" is offered as Tray1, which prints as "tray-1". */
  lemma TrayAliasNotAdvertised()
    ensures FirstOccurrences(Mapped(TRAY_TABLE, ["main"])) == ["Tray1"]
    ensures Fwd(TRAY_TABLE, "Tray1") == Some("tray-1")
  {
    AliasesOffered();
    assert ["main"][..0] == [];
    TrayFwdAfterRev("main");
    assert Mapped(TRAY_TABLE, ["main"]) == ["Tray1"];
    assert ["Tray1"][..0] == [];
  }

  lemma AliasesOffered()
    ensures Rev(TRAY_TABLE, "main") == Some("Tray1")
    ensures Rev(TRAY_TABLE, "by-pass-tray") == Some("Manual")
  {
    TrayNamesUnique();
    RevIsFirstMatch(TRAY_TABLE, "main");
    RevIsFirstMatch(TRAY_TABLE, "by-pass-tray");
    assert TRAY_TABLE[3] == Entry("Tray1", Some("main"));
    assert TRAY_TABLE[7] == Entry("Manual", Some("by-pass-tray"));
  }
}
