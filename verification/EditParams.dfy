/** The checks and updates of editPrintParams, and the what-if overlay of getAreaForInsets. */
module EditParams {
  import opened Prelude
  import opened ParamMap
  import opened PrintableArea
  import opened CupsOptions
  import opened PrintErrors

  /** The arguments of a call; None where the key was missing. */
  datatype Edits = Edits(
    mediaSize: Option<string>, mediaType: Option<string>, printQuality: Option<string>, duplex: Option<string>,
    dryTime: Option<string>, color: Option<string>, tray: Option<string>, numCopies: Option<int>,
    borderless: Option<bool>, autoRotate: Option<bool>, autoScale: Option<bool>,
    topInset: Option<real>, leftInset: Option<real>, rightInset: Option<real>, bottomInset: Option<real>)

  const NO_EDITS := Edits(None, None, None, None, None, None, None, None, None, None, None, None, None, None, None)

  predicate Rejects(t: seq<Entry>, k: Option<string>) {
    k.Some? && !Accepts(t, k.value)
  }

  predicate TouchesInsets(e: Edits) {
    e.topInset.Some? || e.leftInset.Some? || e.rightInset.Some? || e.bottomInset.Some?
  }

  function OverlayFlags(p: PrintParams, e: Edits): PrintParams {
    p.(borderless := Or(e.borderless, p.borderless), autoRotate := Or(e.autoRotate, p.autoRotate),
       autoScale := Or(e.autoScale, p.autoScale))
  }

  function OverlayInsets(p: PrintParams, e: Edits): PrintParams {
    p.(topInset := Or(e.topInset, p.topInset), leftInset := Or(e.leftInset, p.leftInset),
       rightInset := Or(e.rightInset, p.rightInset), bottomInset := Or(e.bottomInset, p.bottomInset))
  }

  /** Whether the k-th of the checked fields is refused, in the order they are looked at. */
  predicate FieldRefused(e: Edits, k: nat) {
    match k
    case 0 => Rejects(MEDIA_TABLE, e.mediaSize)
    case 1 => Rejects(MEDIATYPE_TABLE, e.mediaType)
    case 2 => Rejects(QUALITY_TABLE, e.printQuality)
    case 3 => Rejects(DUPLEX_TABLE, e.duplex)
    case 4 => Rejects(DRYTIME_TABLE, e.dryTime)
    case 5 => Rejects(COLOR_TABLE, e.color)
    case 6 => Rejects(TRAY_TABLE, e.tray)
    case _ => e.numCopies.Some? && (e.numCopies.value < 1 || e.numCopies.value > 99)
  }

  /** Number of the first field that is refused; 8 if none is. */
  function FirstRefused(e: Edits): (n: nat)
    ensures n <= 8
  {
    if FieldRefused(e, 0) then 0
    else if FieldRefused(e, 1) then 1
    else if FieldRefused(e, 2) then 2
    else if FieldRefused(e, 3) then 3
    else if FieldRefused(e, 4) then 4
    else if FieldRefused(e, 5) then 5
    else if FieldRefused(e, 6) then 6
    else if FieldRefused(e, 7) then 7
    else 8
  }

  const FIELD_ERRORS: seq<int> := [
    BAD_MEDIA_SIZE, BAD_MEDIA_TYPE, BAD_PRINT_QUALITY, BAD_DUPLEX, BAD_DRYTIME, BAD_COLOR, BAD_TRAY, BAD_PARAM_SYNTAX
  ]

  /** The first n of those fields take their new values, the others keep the old ones. */
  function OverlayFields(p: PrintParams, e: Edits, n: nat): PrintParams {
    p.(mediaSize := if n > 0 then Or(e.mediaSize, p.mediaSize) else p.mediaSize,
       mediaType := if n > 1 then Or(e.mediaType, p.mediaType) else p.mediaType,
       printQuality := if n > 2 then Or(e.printQuality, p.printQuality) else p.printQuality,
       duplex := if n > 3 then Or(e.duplex, p.duplex) else p.duplex,
       dryTime := if n > 4 then Or(e.dryTime, p.dryTime) else p.dryTime,
       color := if n > 5 then Or(e.color, p.color) else p.color,
       tray := if n > 6 then Or(e.tray, p.tray) else p.tray,
       numCopies := if n > 7 then Or(e.numCopies, p.numCopies) else p.numCopies)
  }

  /** Taking the fields over one at a time. */
  lemma FieldByField(p: PrintParams, e: Edits)
    ensures OverlayFields(p, e, 0) == p
    ensures OverlayFields(p, e, 1) == p.(mediaSize := Or(e.mediaSize, p.mediaSize))
    ensures OverlayFields(p, e, 2) == OverlayFields(p, e, 1).(mediaType := Or(e.mediaType, p.mediaType))
    ensures OverlayFields(p, e, 3) == OverlayFields(p, e, 2).(printQuality := Or(e.printQuality, p.printQuality))
    ensures OverlayFields(p, e, 4) == OverlayFields(p, e, 3).(duplex := Or(e.duplex, p.duplex))
    ensures OverlayFields(p, e, 5) == OverlayFields(p, e, 4).(dryTime := Or(e.dryTime, p.dryTime))
    ensures OverlayFields(p, e, 6) == OverlayFields(p, e, 5).(color := Or(e.color, p.color))
    ensures OverlayFields(p, e, 7) == OverlayFields(p, e, 6).(tray := Or(e.tray, p.tray))
    ensures OverlayFields(p, e, 8) == OverlayFields(p, e, 7).(numCopies := Or(e.numCopies, p.numCopies))
  {}

  /** Every supplied value taken over, whether it is acceptable or not. */
  function Overlay(p: PrintParams, e: Edits): PrintParams {
    OverlayInsets(OverlayFlags(OverlayFields(p, e, 8), e), e).(insetsSet := p.insetsSet || TouchesInsets(e))
  }

  /**
   * The parameters an edit leaves behind, and its error. A refused field stops the edit, keeping what was
   * written before it; the clash of borderless and insets (-602) is only found after everything is written.
   */
  function Edited(p: PrintParams, e: Edits): (PrintParams, Option<int>) {
    var n := FirstRefused(e);
    if n < 8 then (OverlayFields(p, e, n), Some(FIELD_ERRORS[n]))
    else
      var q := Overlay(p, e);
      (q, if q.borderless && q.insetsSet then Some(INSETS_WITH_BORDERLESS) else None)
  }

  /** The k-th checked field has an acceptable value. */
  ghost predicate FieldValid(p: PrintParams, k: nat) {
    match k
    case 0 => Accepts(MEDIA_TABLE, p.mediaSize)
    case 1 => Accepts(MEDIATYPE_TABLE, p.mediaType)
    case 2 => Accepts(QUALITY_TABLE, p.printQuality)
    case 3 => Accepts(DUPLEX_TABLE, p.duplex)
    case 4 => Accepts(DRYTIME_TABLE, p.dryTime)
    case 5 => Accepts(COLOR_TABLE, p.color)
    case 6 => Accepts(TRAY_TABLE, p.tray)
    case _ => 1 <= p.numCopies <= 99
  }

  ghost predicate FieldsValid(p: PrintParams) {
    && FieldValid(p, 0) && FieldValid(p, 1) && FieldValid(p, 2) && FieldValid(p, 3)
    && FieldValid(p, 4) && FieldValid(p, 5) && FieldValid(p, 6) && FieldValid(p, 7)
  }

  lemma ValidByField(p: PrintParams)
    ensures ValidParams(p) <==> FieldsValid(p)
  {
    hide Accepts;
  }

  lemma OverlaidFieldValid(p: PrintParams, e: Edits, n: nat, k: nat)
    requires k < 8 && FieldValid(p, k) && (k < n ==> !FieldRefused(e, k))
    ensures FieldValid(OverlayFields(p, e, n), k)
  {
    hide Accepts;
  }

  lemma NoneRefusedBefore(e: Edits, k: nat)
    requires k < 8
    ensures k < FirstRefused(e) ==> !FieldRefused(e, k)
  {
    hide FieldRefused;
  }

  lemma OverlaidFieldsValid(p: PrintParams, e: Edits)
    requires FieldsValid(p)
    ensures FieldsValid(OverlayFields(p, e, FirstRefused(e)))
  {
    hide FieldValid, FieldRefused, OverlayFields, FirstRefused;
    var n := FirstRefused(e);
    forall k: nat | k < 8 && FieldValid(p, k)
      ensures FieldValid(OverlayFields(p, e, n), k)
    {
      NoneRefusedBefore(e, k);
      OverlaidFieldValid(p, e, n, k);
    }
  }

  /** Flags and insets have no part in it. */
  lemma RestKeepsValid(p: PrintParams, e: Edits)
    ensures FieldsValid(Overlay(p, e)) <==> FieldsValid(OverlayFields(p, e, 8))
  {
    hide Accepts, OverlayFields;
  }

  /** Even an edit rejected halfway leaves accepted keywords and 1 to 99 copies. */
  lemma EditKeepsValid(p: PrintParams, e: Edits)
    requires ValidParams(p)
    ensures ValidParams(Edited(p, e).0)
  {
    ValidByField(p);
    ValidByField(Edited(p, e).0);
    OverlaidFieldsValid(p, e);
    RestKeepsValid(p, e);
    hide ValidParams, FieldsValid, OverlayFields, Overlay, FirstRefused;
  }

  /** A successful edit is exactly the overlay of what was supplied, and never ends borderless with insets. */
  lemma EditSucceeds(p: PrintParams, e: Edits)
    ensures Edited(p, e).1.None? <==> FirstRefused(e) == 8 && !(Overlay(p, e).borderless && Overlay(p, e).insetsSet)
    ensures Edited(p, e).1.None? ==> Edited(p, e).0 == Overlay(p, e)
    ensures Edited(p, e).1 == Some(INSETS_WITH_BORDERLESS) ==>
              Edited(p, e).0 == Overlay(p, e) && Edited(p, e).0.borderless && Edited(p, e).0.insetsSet
  {}

  // ----------------------------------------------------------------- refused edits

  /** A refused edit may leave its mark: borderless with an inset is refused, and both stay set. */
  lemma RefusedEditLeavesMark()
    ensures var p, e := InitialParams(), NO_EDITS.(borderless := Some(true), topInset := Some(1.0));
            && Edited(p, e).1 == Some(INSETS_WITH_BORDERLESS)
            && Edited(p, e).0 == p.(borderless := true, topInset := 1.0, insetsSet := true)
            && Edited(p, e).0 != p
  {
    assert FirstRefused(NO_EDITS.(borderless := Some(true), topInset := Some(1.0))) == 8;
  }

  predicate Unchanged<T(==)>(o: Option<T>, current: T) {
    o.Some? ==> o.value == current
  }

  /** The k-th checked field is absent or already has the value supplied. */
  predicate FieldUnchanged(p: PrintParams, e: Edits, k: nat) {
    match k
    case 0 => Unchanged(e.mediaSize, p.mediaSize)
    case 1 => Unchanged(e.mediaType, p.mediaType)
    case 2 => Unchanged(e.printQuality, p.printQuality)
    case 3 => Unchanged(e.duplex, p.duplex)
    case 4 => Unchanged(e.dryTime, p.dryTime)
    case 5 => Unchanged(e.color, p.color)
    case 6 => Unchanged(e.tray, p.tray)
    case _ => Unchanged(e.numCopies, p.numCopies)
  }

  /** The flags and insets are absent or already have the values supplied, and insets given were set before. */
  predicate RestUnchanged(p: PrintParams, e: Edits) {
    && Unchanged(e.borderless, p.borderless) && Unchanged(e.autoRotate, p.autoRotate) && Unchanged(e.autoScale, p.autoScale)
    && Unchanged(e.topInset, p.topInset) && Unchanged(e.leftInset, p.leftInset)
    && Unchanged(e.rightInset, p.rightInset) && Unchanged(e.bottomInset, p.bottomInset)
    && (TouchesInsets(e) ==> p.insetsSet)
  }

  /**
   * An edit leaves the parameters alone exactly if everything it reaches is already as supplied: the fields before
   * the refused one, and the flags and insets as well if no field is refused.
   */
  lemma EditChangesNothing(p: PrintParams, e: Edits)
    ensures Edited(p, e).0 == p
       <==> (forall k: nat :: k < FirstRefused(e) ==> FieldUnchanged(p, e, k))
            && (FirstRefused(e) == 8 ==> RestUnchanged(p, e))
  {
    hide FieldRefused;
    var n := FirstRefused(e);
    FieldsUnchanged(p, e, n);
    if n == 8 {
      hide FirstRefused, OverlayFields;
      FieldsApart(p, e);
    }
  }

  lemma FieldsUnchanged(p: PrintParams, e: Edits, n: nat)
    requires n <= 8
    ensures OverlayFields(p, e, n) == p <==> forall k: nat :: k < n ==> FieldUnchanged(p, e, k)
  {
    var q := OverlayFields(p, e, n);
    if forall k: nat :: k < n ==> FieldUnchanged(p, e, k) {
      assert forall k: nat :: k < n ==> FieldUnchanged(p, e, k);
      assert n > 0 ==> FieldUnchanged(p, e, 0);
      assert n > 1 ==> FieldUnchanged(p, e, 1);
      assert n > 2 ==> FieldUnchanged(p, e, 2);
      assert n > 3 ==> FieldUnchanged(p, e, 3);
      assert n > 4 ==> FieldUnchanged(p, e, 4);
      assert n > 5 ==> FieldUnchanged(p, e, 5);
      assert n > 6 ==> FieldUnchanged(p, e, 6);
      assert n > 7 ==> FieldUnchanged(p, e, 7);
    }
  }

  /** The fields and the rest do not overlap. */
  lemma FieldsApart(p: PrintParams, e: Edits)
    ensures Overlay(p, e) == p <==> OverlayFields(p, e, 8) == p && RestUnchanged(p, e)
  {}

  // Borderless with insets set: the combination -602 complains about.
  predicate Stuck(p: PrintParams) {
    p.borderless && p.insetsSet
  }

  predicate Releases(e: Edits) {
    FirstRefused(e) == 8 && e.borderless == Some(false)
  }

  /**
   * Insets once set stay set. So from borderless with insets every edit is refused but one that turns borderless
   * off, although an edit refused with -602 takes full effect.
   */
  lemma StuckEdit(p: PrintParams, e: Edits)
    ensures p.insetsSet ==> Edited(p, e).0.insetsSet
    ensures Stuck(p) ==> (Edited(p, e).1.None? <==> Releases(e)) && (Stuck(Edited(p, e).0) <==> !Releases(e))
    ensures Stuck(p) && FirstRefused(e) == 8 && !Releases(e) ==> Edited(p, e) == (Overlay(p, e), Some(INSETS_WITH_BORDERLESS))
  {
    hide FieldRefused;
  }

  /**
   * The what-if of getAreaForInsets on a bordered job is the area at 300 dpi after an edit of the same insets,
   * and that edit is not refused.
   */
  lemma WhatIfIsEditThenArea(p: PrintParams, e: Edits)
    requires !p.borderless
    requires e == NO_EDITS.(topInset := e.topInset, leftInset := e.leftInset,
                            rightInset := e.rightInset, bottomInset := e.bottomInset)
    ensures Edited(p, e).1.None?
    ensures AreaOf(p.mediaSize, OverlayInsets(p, e), 300) == AreaOf(Edited(p, e).0.mediaSize, Edited(p, e).0, 300)
  {
    hide FindSheet, Extent;
    assert FirstRefused(e) == 8;
    var q := Edited(p, e).0;
    assert q == OverlayInsets(p, e).(insetsSet := q.insetsSet);
  }

  /** On a borderless job they part: the what-if ignores the insets, the edit is refused with -602. */
  lemma WhatIfOnBorderless(p: PrintParams, e: Edits)
    requires p.borderless && TouchesInsets(e)
    requires e == NO_EDITS.(topInset := e.topInset, leftInset := e.leftInset,
                            rightInset := e.rightInset, bottomInset := e.bottomInset)
    ensures Edited(p, e).1 == Some(INSETS_WITH_BORDERLESS)
    ensures AreaOf(p.mediaSize, OverlayInsets(p, e), 300) == AreaOf(p.mediaSize, p, 300)
  {
    hide FindSheet, Extent;
    assert FirstRefused(e) == 8;
  }
}
