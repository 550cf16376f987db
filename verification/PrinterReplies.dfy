/** When each call to the printer store does what, in terms of the groups and keys stored. */
module PrinterReplies {
  import opened Prelude
  import opened PrinterDb

  // ------------------------------------------------------------------------- delete

  /** The printer is there, and the ssid given, if any, is the one it was stored under. */
  ghost predicate Deletable(kf: KeyFile, id: string, ssid: Option<string>) {
    id in Names(kf) && (ssid.None? || ssid.value == "" || GetKey(kf, id, KEY_SSID) == Some(ssid.value))
  }

  /** A delete takes its printer out of memory exactly then; otherwise it is refused and changes nothing at all. */
  lemma DeleteExactly(s: State, op: Op)
    requires op.Delete? && StateOk(s)
    ensures var (s', reply) := Step(s, op);
            && (Deletable(s.memory, op.id, op.ssid) ==>
                  op.id !in Names(s'.memory) && reply == (if op.flushes then Done else Refused)
                  && s'.disk == if op.flushes then s'.memory else s.disk)
            && (!Deletable(s.memory, op.id, op.ssid) ==> s' == s && reply == Refused)
            && (s'.memory != s.memory <==> Deletable(s.memory, op.id, op.ssid))
  {
    NotAmongNames(s.memory, op.id);
    if HasGroup(s.memory, op.id) {
      WithoutIsShorter(s.memory, op.id);
      NamesWithout(s.memory, op.id);
    }
    hide Find, Without, Drop, GetKey;
  }

  // ---------------------------------------------------------------------------- add

  /** Some stored printer has this address. */
  ghost predicate HasAddress(kf: KeyFile, address: string) {
    exists g :: g in Names(kf) && g != "settings" && GetKey(kf, g, KEY_ADDRESS) == Some(address)
  }

  /**
   * An add fails with -204 exactly if the id is taken, with -205 exactly if only the address is, with -702 exactly
   * if neither is but the file cannot be written, and else succeeds.
   */
  lemma AddExactly(s: State, op: Op)
    requires op.Add?
    ensures var reply := Step(s, op).1;
            var taken, clash := op.id in Names(s.memory), op.address.Some? && HasAddress(s.memory, op.address.value);
            && (reply == Failed(-204) <==> taken)
            && (reply == Failed(-205) <==> !taken && clash)
            && (reply == Failed(-702) <==> !taken && !clash && !op.flushes)
            && (reply == Done <==> !taken && !clash && op.flushes)
  {
    NotAmongNames(s.memory, op.id);
    AddressTakenIs(s.memory, op.address);
    hide HasGroup, AddressTaken, WithPrinter, RemoveGroup, HasAddress;
  }

  lemma AddressTakenIs(kf: KeyFile, address: Option<string>)
    ensures AddressTaken(kf, address) <==> address.Some? && HasAddress(kf, address.value)
  {
    hide GetKey;
    if AddressTaken(kf, address) {
      var i :| 0 <= i < |kf| && IsPrinter(kf[i].name) && GetKey(kf, kf[i].name, KEY_ADDRESS) == address;
      assert Names(kf)[i] == kf[i].name;
    }
    if address.Some? && HasAddress(kf, address.value) {
      var g :| g in Names(kf) && g != "settings" && GetKey(kf, g, KEY_ADDRESS) == Some(address.value);
      var i :| 0 <= i < |Names(kf)| && Names(kf)[i] == g;
      assert kf[i].name == g;
    }
  }

  // --------------------------------------------------------------- the current printer

  /** What is set as current printer is what is asked for next, and no other key changes. */
  lemma CurrentIsWhatWasSet(s: State, op: Op, g: string, k: string)
    requires op.SetCurrent?
    ensures var (s', reply) := Step(s, op);
            && Current(s'.memory) == (if op.current.Some? then op.current.value else "")
            && (g != "settings" || k != "currentPrinter" ==> GetKey(s'.memory, g, k) == GetKey(s.memory, g, k))
            && Listed(s'.memory, None) == Listed(s.memory, None)
            && reply == (if op.flushes then Done else Refused)
            && s'.disk == if op.flushes then s'.memory else s.disk
  {
    var v := Or(op.current, "");
    SetKeyThenGet(s.memory, GROUP_SETTINGS, KEY_CURRENT, v, GROUP_SETTINGS, KEY_CURRENT);
    SetKeyThenGet(s.memory, GROUP_SETTINGS, KEY_CURRENT, v, g, k);
    SettingsUnlisted(s.memory, v);
  }

  lemma SettingsUnlisted(kf: KeyFile, v: string)
    ensures Listed(SetKey(kf, GROUP_SETTINGS, KEY_CURRENT, v), None) == Listed(kf, None)
  {
    var after := SetKey(kf, GROUP_SETTINGS, KEY_CURRENT, v);
    forall x | IsPrinter(x)
      ensures RecordOf(after, x) == RecordOf(kf, x)
    {
      hide GetKey, SetKey;
      SetKeyThenGet(kf, GROUP_SETTINGS, KEY_CURRENT, v, x, KEY_NAME);
      SetKeyThenGet(kf, GROUP_SETTINGS, KEY_CURRENT, v, x, KEY_ADDRESS);
      SetKeyThenGet(kf, GROUP_SETTINGS, KEY_CURRENT, v, x, KEY_SSID);
    }
    PrintersSame(kf, after, Names(kf));
    NamesAfterSet(kf, v);
    hide RecordOf, SetKey, Names;
    if Names(after) != Names(kf) { assert (Names(kf) + [GROUP_SETTINGS])[..|Names(kf)|] == Names(kf); }
  }

  lemma NamesAfterSet(kf: KeyFile, v: string)
    ensures var after := SetKey(kf, GROUP_SETTINGS, KEY_CURRENT, v);
            Names(after) == Names(kf) || Names(after) == Names(kf) + [GROUP_SETTINGS]
  {
    hide Find;
    if HasGroup(kf, GROUP_SETTINGS) {
      assert Names(SetKey(kf, GROUP_SETTINGS, KEY_CURRENT, v)) == Names(kf);
    } else {
      assert Names(SetKey(kf, GROUP_SETTINGS, KEY_CURRENT, v)) == Names(kf) + [GROUP_SETTINGS];
    }
  }

  lemma {:induction false} PrintersSame(a: KeyFile, b: KeyFile, groups: seq<string>)
    requires forall x :: IsPrinter(x) ==> RecordOf(a, x) == RecordOf(b, x)
    ensures Records(a, None, groups) == Records(b, None, groups)
  {
    if groups != [] {
      hide GetKey;
      PrintersSame(a, b, groups[..|groups| - 1]);
    }
  }

  // -------------------------------------------------------------------------- the list

  /** The list holds exactly the groups but the settings, each with its stored name, address and ssid. */
  lemma ListsThePrinters(kf: KeyFile, r: Record)
    ensures r in Listed(kf, None) <==>
              && r.id in Names(kf) && r.id != "settings"
              && r.name == GetKey(kf, r.id, "printerName") && r.address == GetKey(kf, r.id, "printerAddress")
              && r.ssid == GetKey(kf, r.id, "ssid")
  {
    RecordsAre(kf, Names(kf), r);
    hide GetKey;
  }

  lemma {:induction false} RecordsAre(kf: KeyFile, groups: seq<string>, r: Record)
    ensures r in Records(kf, None, groups) <==> r.id in groups && IsPrinter(r.id) && r == RecordOf(kf, r.id)
  {
    if groups != [] {
      hide GetKey;
      var init, last := groups[..|groups| - 1], groups[|groups| - 1];
      assert groups == init + [last];
      RecordsAre(kf, init, r);
    }
  }
}
