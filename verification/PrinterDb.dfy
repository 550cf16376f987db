/** The store of manually added printers: an ordered group file kept in memory and written out after each change. */
module PrinterDb {
  import opened Prelude
  import opened PrintErrors

  const GROUP_SETTINGS := "settings"
  const KEY_CURRENT := "currentPrinter"
  const KEY_NAME := "printerName"
  const KEY_ADDRESS := "printerAddress"
  const KEY_SSID := "ssid"

  // ------------------------------------------------------------- the group file

  datatype Group = Group(name: string, keys: map<string, string>)

  type KeyFile = seq<Group>

  /** Position of a group; the length of the file if there is none. */
  function Find(kf: KeyFile, name: string): (i: nat)
    ensures i <= |kf|
    ensures i < |kf| ==> kf[i].name == name
    ensures forall j :: 0 <= j < i ==> kf[j].name != name
  {
    if kf == [] then 0 else if kf[0].name == name then 0 else 1 + Find(kf[1..], name)
  }

  predicate HasGroup(kf: KeyFile, name: string) {
    Find(kf, name) < |kf|
  }

  function GetKey(kf: KeyFile, group: string, key: string): Option<string> {
    var i := Find(kf, group);
    if i < |kf| && key in kf[i].keys then Some(kf[i].keys[key]) else None
  }

  /** A new group goes to the end. */
  function SetKey(kf: KeyFile, group: string, key: string, value: string): KeyFile {
    var i := Find(kf, group);
    if i < |kf| then kf[i := Group(group, kf[i].keys[key := value])] else kf + [Group(group, map[key := value])]
  }

  function RemoveKey(kf: KeyFile, group: string, key: string): KeyFile {
    var i := Find(kf, group);
    if i < |kf| then kf[i := Group(group, kf[i].keys - {key})] else kf
  }

  function RemoveGroup(kf: KeyFile, name: string): KeyFile {
    var i := Find(kf, name);
    if i < |kf| then kf[..i] + kf[i + 1..] else kf
  }

  // ------------------------------------------------------------------ operations

  datatype Record = Record(id: string, name: Option<string>, address: Option<string>, ssid: Option<string>)

  predicate IsPrinter(group: string) {
    group != GROUP_SETTINGS
  }

  function RecordOf(kf: KeyFile, id: string): Record {
    Record(id, GetKey(kf, id, KEY_NAME), GetKey(kf, id, KEY_ADDRESS), GetKey(kf, id, KEY_SSID))
  }

  /** Some printer group already has this address. */
  predicate AddressTaken(kf: KeyFile, address: Option<string>) {
    address.Some? && exists i :: 0 <= i < |kf| && IsPrinter(kf[i].name) && GetKey(kf, kf[i].name, KEY_ADDRESS) == address
  }

  function WithPrinter(kf: KeyFile, id: string, name: Option<string>, address: Option<string>, ssid: Option<string>): KeyFile {
    SetKey(SetKey(SetKey(kf, id, KEY_NAME, Or(name, id)), id, KEY_ADDRESS, Or(address, "")), id, KEY_SSID, Or(ssid, ""))
  }

  /** Whether a delete finds its printer: the group exists and, if an ssid is given, it is the stored one. */
  predicate Removes(kf: KeyFile, id: string, ssid: Option<string>) {
    HasGroup(kf, id) && (ssid.Some? && ssid.value != "" ==> GetKey(kf, id, KEY_SSID) == ssid)
  }

  function Without(kf: KeyFile, id: string): KeyFile {
    var rest := RemoveGroup(kf, id);
    if GetKey(rest, GROUP_SETTINGS, KEY_CURRENT) == Some(id) then RemoveKey(rest, GROUP_SETTINGS, KEY_CURRENT) else rest
  }

  function Names(kf: KeyFile): seq<string> {
    seq(|kf|, i requires 0 <= i < |kf| => kf[i].name)
  }

  predicate Passes(r: Record, filter: Option<string>) {
    IsPrinter(r.id) && (filter.Some? ==> Or(r.ssid, "") == filter.value)
  }

  /** The records of those groups that are printers and pass the filter, in order. */
  function Records(kf: KeyFile, filter: Option<string>, groups: seq<string>): seq<Record> {
    if groups == [] then []
    else
      var rest := Records(kf, filter, groups[..|groups| - 1]);
      var r := RecordOf(kf, groups[|groups| - 1]);
      if Passes(r, filter) then rest + [r] else rest
  }

  /** printer_db_list. */
  function Listed(kf: KeyFile, filter: Option<string>): seq<Record> {
    Records(kf, filter, Names(kf))
  }

  function Current(kf: KeyFile): string {
    Or(GetKey(kf, GROUP_SETTINGS, KEY_CURRENT), "")
  }

  // -------------------------------------------------------------------- the code

  class Store {
    var keyfile: KeyFile
    var currentCache: Option<string>
    ghost var disk: KeyFile

    /** printer_db_open: what is on disk is loaded; nothing, if it is missing or does not parse. */
    constructor (loaded: KeyFile)
      ensures keyfile == disk == loaded
    {
      keyfile, disk, currentCache := loaded, loaded, None;
    }

    ghost function View(): State
      reads this
    {
      State(keyfile, disk)
    }

    /** db_flush: the file is replaced as a whole or not at all. */
    method Flush(succeeds: bool) returns (ok: bool)
      modifies `disk
      ensures ok == succeeds && disk == if succeeds then keyfile else old(disk)
    {
      if succeeds { disk := keyfile; }
      return succeeds;
    }

    method Add(id: string, name: Option<string>, address: Option<string>, ssid: Option<string>, flushes: bool)
      returns (reply: Reply)
      modifies `keyfile, `disk
      ensures (View(), reply) == Step(old(View()), Op.Add(id, name, address, ssid, flushes))
    {
      hide Find, SetKey, RemoveGroup, GetKey;
      if HasGroup(keyfile, id) { return Failed(PRINTER_DUPLICATE_ID); }
      for i := 0 to |keyfile|
        invariant keyfile == old(keyfile) && disk == old(disk)
        invariant address.Some? ==> forall j :: 0 <= j < i && IsPrinter(keyfile[j].name) ==>
                    GetKey(keyfile, keyfile[j].name, KEY_ADDRESS) != address
      {
        if IsPrinter(keyfile[i].name) {
          var stored := GetKey(keyfile, keyfile[i].name, KEY_ADDRESS);
          if stored.Some? && address.Some? && stored.value == address.value {
            return Failed(PRINTER_DUPLICATE_IP);
          }
        }
      }
      keyfile := SetKey(keyfile, id, KEY_NAME, Or(name, id));
      keyfile := SetKey(keyfile, id, KEY_ADDRESS, Or(address, ""));
      keyfile := SetKey(keyfile, id, KEY_SSID, Or(ssid, ""));
      var ok := Flush(flushes);
      if !ok {
        keyfile := RemoveGroup(keyfile, id);
        return Failed(PRINTER_DB_ACCESS);
      }
      return Done;
    }

    method Delete(id: string, ssid: Option<string>, flushes: bool) returns (reply: Reply)
      modifies `keyfile, `disk
      ensures (View(), reply) == Step(old(View()), Op.Delete(id, ssid, flushes))
    {
      hide Find, RemoveGroup, GetKey, RemoveKey;
      if !HasGroup(keyfile, id) { return Refused; }
      if ssid.Some? && ssid.value != "" {
        var stored := GetKey(keyfile, id, KEY_SSID);
        if stored != ssid { return Refused; }
      }
      keyfile := RemoveGroup(keyfile, id);
      var current := GetKey(keyfile, GROUP_SETTINGS, KEY_CURRENT);
      if current.Some? && current.value == id { keyfile := RemoveKey(keyfile, GROUP_SETTINGS, KEY_CURRENT); }
      var ok := Flush(flushes);
      return if ok then Done else Refused;
    }

    method SetCurrent(id: Option<string>, flushes: bool) returns (reply: Reply)
      modifies `keyfile, `disk
      ensures (View(), reply) == Step(old(View()), Op.SetCurrent(id, flushes))
    {
      keyfile := SetKey(keyfile, GROUP_SETTINGS, KEY_CURRENT, Or(id, ""));
      var ok := Flush(flushes);
      return if ok then Done else Refused;
    }

    method GetCurrent() returns (id: string)
      modifies `currentCache
      ensures id == Current(keyfile)
    {
      currentCache := GetKey(keyfile, GROUP_SETTINGS, KEY_CURRENT);
      id := if currentCache.Some? then currentCache.value else "";
    }

    /** Built back to front and turned round at the end. */
    method List(filter: Option<string>) returns (records: seq<Record>)
      ensures records == Listed(keyfile, filter)
    {
      hide GetKey;
      var out := [];
      var groups := Names(keyfile);
      for i := 0 to |groups|
        invariant Reversed(out) == Records(keyfile, filter, groups[..i])
      {
        assert groups[..i + 1][..i] == groups[..i];
        if IsPrinter(groups[i]) {
          var ssid := GetKey(keyfile, groups[i], KEY_SSID);
          if filter.None? || filter.value == Or(ssid, "") {
            var name := GetKey(keyfile, groups[i], KEY_NAME);
            var address := GetKey(keyfile, groups[i], KEY_ADDRESS);
            out := [Record(groups[i], name, address, ssid)] + out;
          }
        }
      }
      assert groups[..|groups|] == groups;
      records := Reversed(out);
    }
  }

  function Reversed<T>(s: seq<T>): seq<T> {
    if s == [] then [] else Reversed(s[1..]) + [s[0]]
  }

  // ----------------------------------------------------------- as a state machine

  datatype State = State(memory: KeyFile, disk: KeyFile)

  datatype Op =
    | Add(id: string, name: Option<string>, address: Option<string>, ssid: Option<string>, flushes: bool)
    | Delete(id: string, ssid: Option<string>, flushes: bool)
    | SetCurrent(current: Option<string>, flushes: bool)
    | Reopen

  datatype Reply = Done | Refused | Failed(err: int)

  function Written(s: State, memory: KeyFile, flushes: bool): State {
    State(memory, if flushes then memory else s.disk)
  }

  function Step(s: State, op: Op): (State, Reply) {
    match op
    case Add(id, name, address, ssid, flushes) =>
      if HasGroup(s.memory, id) then (s, Failed(PRINTER_DUPLICATE_ID))
      else if AddressTaken(s.memory, address) then (s, Failed(PRINTER_DUPLICATE_IP))
      else
        var added := WithPrinter(s.memory, id, name, address, ssid);
        if flushes then (State(added, added), Done)
        else (State(RemoveGroup(added, id), s.disk), Failed(PRINTER_DB_ACCESS))
    case Delete(id, ssid, flushes) =>
      if !Removes(s.memory, id, ssid) then (s, Refused)
      else (Written(s, Without(s.memory, id), flushes), if flushes then Done else Refused)
    case SetCurrent(current, flushes) =>
      (Written(s, SetKey(s.memory, GROUP_SETTINGS, KEY_CURRENT, Or(current, "")), flushes),
       if flushes then Done else Refused)
    case Reopen => (State(s.disk, s.disk), Done)
  }

  function Run(s: State, ops: seq<Op>): State
    decreases |ops|
  {
    if ops == [] then s else Run(Step(s, ops[0]).0, ops[1..])
  }

  // ------------------------------------------------------- facts of the group file

  ghost predicate DistinctNames(kf: KeyFile) {
    forall i, j :: 0 <= i < j < |kf| ==> kf[i].name != kf[j].name
  }

  /** The first position is determined by the names alone. */
  lemma FindIs(kf: KeyFile, name: string, i: nat)
    requires i <= |kf| && (i < |kf| ==> kf[i].name == name) && forall j :: 0 <= j < i ==> kf[j].name != name
    ensures Find(kf, name) == i
  {}

  lemma SetKeyThenGet(kf: KeyFile, g: string, k: string, v: string, g2: string, k2: string)
    ensures GetKey(SetKey(kf, g, k, v), g2, k2) == if g2 == g && k2 == k then Some(v) else GetKey(kf, g2, k2)
  {
    hide Find;
    var i, j := Find(kf, g), Find(kf, g2);
    FindIs(SetKey(kf, g, k, v), g2, if j < |kf| || g2 == g then j else |SetKey(kf, g, k, v)|);
  }

  lemma RemoveKeyThenGet(kf: KeyFile, g: string, k: string, g2: string, k2: string)
    ensures GetKey(RemoveKey(kf, g, k), g2, k2) == if g2 == g && k2 == k then None else GetKey(kf, g2, k2)
  {
    hide Find;
    FindIs(RemoveKey(kf, g, k), g2, Find(kf, g2));
  }

  lemma RemoveGroupThenGet(kf: KeyFile, g: string, g2: string, k2: string)
    requires DistinctNames(kf)
    ensures GetKey(RemoveGroup(kf, g), g2, k2) == if g2 == g then None else GetKey(kf, g2, k2)
  {
    hide Find;
    var i, j := Find(kf, g), Find(kf, g2);
    var rest := RemoveGroup(kf, g);
    if i < |kf| {
      assert forall n :: 0 <= n < |rest| ==> rest[n] == if n < i then kf[n] else kf[n + 1];
      FindIs(rest, g2, if g2 == g then |rest| else if j < i then j else j - 1);
    } else {
      FindIs(rest, g2, j);
    }
  }

  /** A printer that was not there becomes the last group. */
  lemma WithPrinterAppends(kf: KeyFile, id: string, name: Option<string>, address: Option<string>, ssid: Option<string>)
    requires !HasGroup(kf, id)
    ensures WithPrinter(kf, id, name, address, ssid)
            == kf + [Group(id, map[KEY_NAME := Or(name, id), KEY_ADDRESS := Or(address, ""), KEY_SSID := Or(ssid, "")])]
  {
    hide Find;
    var one := SetKey(kf, id, KEY_NAME, Or(name, id));
    FindIs(one, id, |kf|);
    var two := SetKey(one, id, KEY_ADDRESS, Or(address, ""));
    FindIs(two, id, |kf|);
  }

  // ---------------------------------------------------------------- the invariant

  function AddressOf(g: Group): string {
    if KEY_ADDRESS in g.keys then g.keys[KEY_ADDRESS] else ""
  }

  ghost predicate Clash(a: Group, b: Group) {
    IsPrinter(a.name) && IsPrinter(b.name) && AddressOf(a) != "" && AddressOf(a) == AddressOf(b)
  }

  /** Ids are pairwise distinct, and so are the addresses of printers that have one. */
  ghost predicate StoreOk(kf: KeyFile) {
    DistinctNames(kf) && forall i, j :: 0 <= i < j < |kf| ==> !Clash(kf[i], kf[j])
  }

  lemma AddOk(kf: KeyFile, id: string, name: Option<string>, address: Option<string>, ssid: Option<string>)
    requires StoreOk(kf) && !HasGroup(kf, id) && !AddressTaken(kf, address)
    ensures StoreOk(WithPrinter(kf, id, name, address, ssid))
  {
    hide Find;
    var added := WithPrinter(kf, id, name, address, ssid);
    WithPrinterAppends(kf, id, name, address, ssid);
    forall i | 0 <= i < |kf|
      ensures kf[i].name != id && !Clash(added[i], added[|kf|])
    {
      FindIs(kf, kf[i].name, i);
    }
  }

  lemma RemoveGroupOk(kf: KeyFile, id: string)
    requires StoreOk(kf)
    ensures StoreOk(RemoveGroup(kf, id))
  {
    hide Find, Clash;
    var i, rest := Find(kf, id), RemoveGroup(kf, id);
    if i < |kf| {
      assert forall n :: 0 <= n < |rest| ==> rest[n] == if n < i then kf[n] else kf[n + 1];
    }
  }

  lemma SettingsOk(kf: KeyFile, value: string)
    requires StoreOk(kf)
    ensures StoreOk(SetKey(kf, GROUP_SETTINGS, KEY_CURRENT, value)) && StoreOk(RemoveKey(kf, GROUP_SETTINGS, KEY_CURRENT))
  {
    hide Find;
  }

  ghost predicate StateOk(s: State) {
    StoreOk(s.memory) && StoreOk(s.disk)
  }

  lemma StateStep(s: State, op: Op)
    requires StateOk(s)
    ensures StateOk(Step(s, op).0)
  {
    hide StoreOk, SetKey, RemoveKey, RemoveGroup, HasGroup, AddressTaken, GetKey, WithPrinter;
    match op
    case Add(id, name, address, ssid, _) =>
      if !HasGroup(s.memory, id) && !AddressTaken(s.memory, address) {
        AddOk(s.memory, id, name, address, ssid);
        RemoveGroupOk(WithPrinter(s.memory, id, name, address, ssid), id);
      }
    case Delete(id, _, _) =>
      RemoveGroupOk(s.memory, id);
      SettingsOk(RemoveGroup(s.memory, id), "");
    case SetCurrent(current, _) => SettingsOk(s.memory, Or(current, ""));
    case Reopen =>
  }

  /** Ids and non-empty addresses stay pairwise distinct in every run, in memory and on disk. */
  lemma {:induction false} StateRun(s: State, ops: seq<Op>)
    requires StateOk(s)
    ensures StateOk(Run(s, ops))
    decreases |ops|
  {
    if ops != [] {
      hide Step, StateOk;
      StateStep(s, ops[0]);
      StateRun(Step(s, ops[0]).0, ops[1..]);
    }
  }

  // -------------------------------------------------------------------------- add

  /** A failed add, whatever the reason, leaves memory and disk exactly as they were. */
  lemma FailedAddRestores(s: State, op: Op)
    requires op.Add? && Step(s, op).1.Failed?
    ensures Step(s, op).0 == s
  {
    hide Find;
    if !HasGroup(s.memory, op.id) {
      WithPrinterAppends(s.memory, op.id, op.name, op.address, op.ssid);
      var added := WithPrinter(s.memory, op.id, op.name, op.address, op.ssid);
      FindIs(added, op.id, |s.memory|);
    }
  }

  lemma WithPrinterThenGet(kf: KeyFile, id: string, name: Option<string>, address: Option<string>, ssid: Option<string>,
                           g: string, k: string)
    ensures GetKey(WithPrinter(kf, id, name, address, ssid), g, k)
            == if g != id then GetKey(kf, g, k)
               else if k == KEY_NAME then Some(Or(name, id))
               else if k == KEY_ADDRESS then Some(Or(address, ""))
               else if k == KEY_SSID then Some(Or(ssid, ""))
               else GetKey(kf, g, k)
  {
    hide GetKey, SetKey;
    var one := SetKey(kf, id, KEY_NAME, Or(name, id));
    var two := SetKey(one, id, KEY_ADDRESS, Or(address, ""));
    SetKeyThenGet(kf, id, KEY_NAME, Or(name, id), g, k);
    SetKeyThenGet(one, id, KEY_ADDRESS, Or(address, ""), g, k);
    SetKeyThenGet(two, id, KEY_SSID, Or(ssid, ""), g, k);
  }

  lemma RecordOfAdded(kf: KeyFile, id: string, name: Option<string>, address: Option<string>, ssid: Option<string>, x: string)
    ensures RecordOf(WithPrinter(kf, id, name, address, ssid), x)
            == if x == id then Record(id, Some(Or(name, id)), Some(Or(address, "")), Some(Or(ssid, ""))) else RecordOf(kf, x)
  {
    hide GetKey, WithPrinter;
    WithPrinterThenGet(kf, id, name, address, ssid, x, KEY_NAME);
    WithPrinterThenGet(kf, id, name, address, ssid, x, KEY_ADDRESS);
    WithPrinterThenGet(kf, id, name, address, ssid, x, KEY_SSID);
  }

  lemma {:induction false} RecordsSame(a: KeyFile, b: KeyFile, filter: Option<string>, groups: seq<string>)
    requires forall i :: 0 <= i < |groups| ==> RecordOf(a, groups[i]) == RecordOf(b, groups[i])
    ensures Records(a, filter, groups) == Records(b, filter, groups)
  {
    if groups != [] {
      hide RecordOf;
      RecordsSame(a, b, filter, groups[..|groups| - 1]);
    }
  }

  /** A name that is not in the file is found nowhere in its names. */
  lemma NotAmongNames(kf: KeyFile, id: string)
    ensures HasGroup(kf, id) <==> id in Names(kf)
  {
    if HasGroup(kf, id) { assert Names(kf)[Find(kf, id)] == id; }
  }

  /**
   * A successful add appends one printer to the list and touches no other, nor the current one; a missing name
   * becomes the id, a missing address or ssid the empty string.
   */
  lemma AddAppends(s: State, op: Op)
    requires op.Add? && Step(s, op).1.Done? && IsPrinter(op.id)
    ensures var added := Step(s, op).0.memory;
            && Listed(added, None) == Listed(s.memory, None)
                 + [Record(op.id, Some(Or(op.name, op.id)), Some(Or(op.address, "")), Some(Or(op.ssid, "")))]
            && Current(added) == Current(s.memory)
  {
    var kf, added := s.memory, Step(s, op).0.memory;
    WithPrinterAppends(kf, op.id, op.name, op.address, op.ssid);
    assert Names(added) == Names(kf) + [op.id];
    NotAmongNames(kf, op.id);
    WithPrinterThenGet(kf, op.id, op.name, op.address, op.ssid, GROUP_SETTINGS, KEY_CURRENT);
    hide RecordOf, WithPrinter, GetKey, HasGroup, AddressTaken;
    RecordOfAdded(kf, op.id, op.name, op.address, op.ssid, op.id);
    forall x | x in Names(kf)
      ensures RecordOf(added, x) == RecordOf(kf, x)
    {
      RecordOfAdded(kf, op.id, op.name, op.address, op.ssid, x);
    }
    RecordsSame(kf, added, None, Names(kf));
    assert (Names(kf) + [op.id])[..|kf|] == Names(kf);
  }

  // ----------------------------------------------------------------------- delete

  /** After a delete nothing points at the removed printer, and every other group and key is as before. */
  lemma DeleteRemovesOnly(s: State, op: Op, g: string, k: string)
    requires StateOk(s) && op.Delete? && Removes(s.memory, op.id, op.ssid)
    ensures var kf := Step(s, op).0.memory;
            && GetKey(kf, g, k) == (if g == op.id || (g == GROUP_SETTINGS && k == KEY_CURRENT
                                                      && GetKey(s.memory, g, k) == Some(op.id))
                                    then None else GetKey(s.memory, g, k))
            && (op.id != "" ==> Current(kf) != op.id)
  {
    hide Find, RemoveGroup, RemoveKey, SetKey, GetKey;
    var rest := RemoveGroup(s.memory, op.id);
    RemoveGroupThenGet(s.memory, op.id, g, k);
    RemoveGroupThenGet(s.memory, op.id, GROUP_SETTINGS, KEY_CURRENT);
    RemoveKeyThenGet(rest, GROUP_SETTINGS, KEY_CURRENT, g, k);
    RemoveKeyThenGet(rest, GROUP_SETTINGS, KEY_CURRENT, GROUP_SETTINGS, KEY_CURRENT);
  }

  /** The printers of a list other than one. */
  function Except(records: seq<Record>, id: string): seq<Record> {
    if records == [] then []
    else
      var rest, last := Except(records[..|records| - 1], id), records[|records| - 1];
      if last.id == id then rest else rest + [last]
  }

  /** A delete takes exactly its printer out of the list and keeps the order of the others. */
  lemma DeleteUnlists(s: State, op: Op)
    requires StateOk(s) && op.Delete? && Removes(s.memory, op.id, op.ssid)
    ensures Listed(Step(s, op).0.memory, None) == Except(Listed(s.memory, None), op.id)
  {
    var kf, after := s.memory, Step(s, op).0.memory;
    NamesWithout(kf, op.id);
    forall x | x in Names(after)
      ensures RecordOf(after, x) == RecordOf(kf, x)
    {
      hide GetKey, Removes, Without;
      NotAmongNames(kf, op.id);
      DeleteRemovesOnly(s, op, x, KEY_NAME);
      DeleteRemovesOnly(s, op, x, KEY_ADDRESS);
      DeleteRemovesOnly(s, op, x, KEY_SSID);
    }
    RecordsSame(kf, after, None, Names(after));
    RecordsExcept(kf, Names(kf), op.id);
  }

  function Drop(names: seq<string>, id: string): seq<string> {
    if names == [] then []
    else
      var rest, last := Drop(names[..|names| - 1], id), names[|names| - 1];
      if last == id then rest else rest + [last]
  }

  lemma {:induction false} RecordsExcept(kf: KeyFile, names: seq<string>, id: string)
    ensures Records(kf, None, Drop(names, id)) == Except(Records(kf, None, names), id)
  {
    if names != [] {
      hide GetKey;
      var init, last := names[..|names| - 1], names[|names| - 1];
      RecordsExcept(kf, init, id);
      assert (Drop(init, id) + [last])[..|Drop(init, id)|] == Drop(init, id);
      assert (Records(kf, None, init) + [RecordOf(kf, last)])[..|Records(kf, None, init)|] == Records(kf, None, init);
    }
  }

  lemma NamesWithout(kf: KeyFile, id: string)
    requires DistinctNames(kf) && HasGroup(kf, id)
    ensures Names(Without(kf, id)) == Drop(Names(kf), id) && id !in Drop(Names(kf), id)
  {
    hide Find;
    var i := Find(kf, id);
    var rest := RemoveGroup(kf, id);
    assert Names(Without(kf, id)) == Names(rest);
    assert Names(rest) == Names(kf)[..i] + Names(kf)[i + 1..];
    DropAt(Names(kf), id, i);
    DropsOut(Names(kf), id);
  }

  lemma DropAt(names: seq<string>, id: string, i: nat)
    requires i < |names| && names[i] == id && forall j :: 0 <= j < |names| && j != i ==> names[j] != id
    ensures Drop(names, id) == names[..i] + names[i + 1..]
  {
    var before, after := names[..i], names[i + 1..];
    assert names == before + [id] + after;
    DropConcat(before + [id], after, id);
    DropConcat(before, [id], id);
    assert [id][..0] == [];
    assert Drop([id], id) == [];
    DropNone(before, id);
    DropNone(after, id);
    assert before + [] == before;
  }

  lemma {:induction false} DropNone(names: seq<string>, id: string)
    requires forall j :: 0 <= j < |names| ==> names[j] != id
    ensures Drop(names, id) == names
  {
    if names != [] {
      DropNone(names[..|names| - 1], id);
      assert names == names[..|names| - 1] + [names[|names| - 1]];
    }
  }

  lemma {:induction false} DropConcat(a: seq<string>, b: seq<string>, id: string)
    ensures Drop(a + b, id) == Drop(a, id) + Drop(b, id)
  {
    if b == [] {
      assert a + b == a;
    } else {
      var init, last := b[..|b| - 1], b[|b| - 1];
      assert (a + b)[..|a + b| - 1] == a + init;
      DropConcat(a, init, id);
      assert (Drop(a, id) + Drop(init, id)) + [last] == Drop(a, id) + (Drop(init, id) + [last]);
    }
  }

  lemma {:induction false} DropsOut(names: seq<string>, id: string)
    ensures id !in Drop(names, id)
  {
    if names != [] { DropsOut(names[..|names| - 1], id); }
  }

  // ------------------------------------------------------------------------- list

  function Matching(records: seq<Record>, ssid: string): seq<Record> {
    if records == [] then []
    else
      var rest, last := Matching(records[..|records| - 1], ssid), records[|records| - 1];
      if Or(last.ssid, "") == ssid then rest + [last] else rest
  }

  /** The list for one network is the sublist of the full list with that ssid, in the same order. */
  lemma ListedForSsid(kf: KeyFile, ssid: string)
    ensures Listed(kf, Some(ssid)) == Matching(Listed(kf, None), ssid)
  {
    RecordsMatching(kf, ssid, Names(kf));
  }

  lemma {:induction false} RecordsMatching(kf: KeyFile, ssid: string, groups: seq<string>)
    ensures Records(kf, Some(ssid), groups) == Matching(Records(kf, None, groups), ssid)
  {
    if groups != [] {
      hide GetKey;
      var init, last := groups[..|groups| - 1], groups[|groups| - 1];
      RecordsMatching(kf, ssid, init);
      assert (Records(kf, None, init) + [RecordOf(kf, last)])[..|Records(kf, None, init)|] == Records(kf, None, init);
    }
  }

  // ------------------------------------------------------------- memory and disk

  /** A step that could not be written although it changed memory. */
  predicate Unwritten(s: State, op: Op) {
    match op
    case Delete(id, ssid, flushes) => !flushes && Removes(s.memory, id, ssid)
    case SetCurrent(current, flushes) =>
      !flushes && GetKey(s.memory, GROUP_SETTINGS, KEY_CURRENT) != Some(Or(current, ""))
    case _ => false
  }

  /**
   * Memory and disk part exactly at a delete or a change of the current printer that cannot be written; a failed
   * add keeps them together.
   */
  lemma InSyncExactly(s: State, op: Op)
    requires s.memory == s.disk
    ensures Step(s, op).0.memory == Step(s, op).0.disk <==> !Unwritten(s, op)
  {
    match op
    case Add(_, _, _, _, _) =>
      if Step(s, op).1.Failed? { FailedAddRestores(s, op); }
    case Delete(id, ssid, _) => WithoutIsShorter(s.memory, id);
    case SetCurrent(current, _) => SetKeyUnchanged(s.memory, GROUP_SETTINGS, KEY_CURRENT, Or(current, ""));
    case Reopen =>
  }

  lemma WithoutIsShorter(kf: KeyFile, id: string)
    ensures HasGroup(kf, id) ==> |Without(kf, id)| < |kf|
  {}

  lemma SetKeyUnchanged(kf: KeyFile, g: string, k: string, v: string)
    ensures SetKey(kf, g, k, v) == kf <==> GetKey(kf, g, k) == Some(v)
  {
    SetKeyThenGet(kf, g, k, v, g, k);
    var i := Find(kf, g);
    if GetKey(kf, g, k) == Some(v) {
      assert kf[i].keys[k := v] == kf[i].keys;
      assert kf[i := kf[i]] == kf;
    }
  }

  /** A delete that cannot be written is gone from memory and back after a restart. */
  lemma UnwrittenDelete()
    ensures var kf := [Group("p", map[KEY_ADDRESS := "10.0.0.1"])];
            var s := Step(State(kf, kf), Op.Delete("p", None, false)).0;
            s.memory == [] && s.disk == kf && Step(s, Reopen).0.memory == kf
  {
    var kf := [Group("p", map[KEY_ADDRESS := "10.0.0.1"])];
    FindIs(kf, "p", 0);
    assert RemoveGroup(kf, "p") == [];
  }

  /** Memory as of the last operation of a run that reported success; `before` if there was none. */
  function LastSuccess(s: State, ops: seq<Op>, before: KeyFile): KeyFile
    decreases |ops|
  {
    if ops == [] then before
    else
      var (s1, reply) := Step(s, ops[0]);
      LastSuccess(s1, ops[1..], if reply.Done? then s1.memory else before)
  }

  /** What a restart finds is always memory as of the last operation that reported success. */
  lemma {:induction false} DiskIsLastSuccess(s: State, ops: seq<Op>)
    ensures Run(s, ops).disk == LastSuccess(s, ops, s.disk)
    decreases |ops|
  {
    if ops != [] {
      DiskStep(s, ops[0]);
      hide Step;
      DiskIsLastSuccess(Step(s, ops[0]).0, ops[1..]);
    }
  }

  lemma DiskStep(s: State, op: Op)
    ensures Step(s, op).0.disk == if Step(s, op).1.Done? then Step(s, op).0.memory else s.disk
  {}

  /** An add may fail to be written, the other operations may not. */
  predicate Reliable(op: Op) {
    match op
    case Add(_, _, _, _, _) => true
    case Delete(_, _, flushes) => flushes
    case SetCurrent(_, flushes) => flushes
    case Reopen => true
  }

  /** While only adds fail to be written, memory and disk are the same throughout. */
  lemma {:induction false} SyncRun(s: State, ops: seq<Op>)
    requires s.memory == s.disk && forall i :: 0 <= i < |ops| ==> Reliable(ops[i])
    ensures Run(s, ops).memory == Run(s, ops).disk
    decreases |ops|
  {
    if ops != [] {
      hide Step;
      InSyncExactly(s, ops[0]);
      SyncRun(Step(s, ops[0]).0, ops[1..]);
    }
  }
}
