/** The live feed of printers/list: Add and Rmv events that must keep every subscriber in step with the known printers. */
module Discovery {

  datatype Printer = Printer(id: string, name: string, address: string, isDiscovered: bool)

  datatype Kind = Add | Rmv

  datatype PrinterEvent = PrinterEvent(kind: Kind, id: string, name: string, address: string, source: string)

  /** post_printer_event. */
  function EventFor(p: Printer, kind: Kind): PrinterEvent {
    PrinterEvent(kind, p.id, p.name, p.address, if p.isDiscovered then "fromZeroconf" else "fromManualAdd")
  }

  predicate Lists(printers: seq<Printer>, id: string) {
    exists i :: 0 <= i < |printers| && printers[i].id == id
  }

  /** The events for those of `printers` whose id is not among `others`, in order. */
  function Missing(printers: seq<Printer>, others: seq<Printer>, kind: Kind): seq<PrinterEvent> {
    if printers == [] then []
    else
      var rest := Missing(printers[..|printers| - 1], others, kind);
      var last := printers[|printers| - 1];
      if Lists(others, last.id) then rest else rest + [EventFor(last, kind)]
  }

  /** What a browse posts. */
  function Diff(known: seq<Printer>, current: seq<Printer>): seq<PrinterEvent> {
    Missing(current, known, Add) + Missing(known, current, Rmv)
  }

  /** One subscription after another; each feed holds the events since its subscriber joined. */
  datatype State = State(known: seq<Printer>, feeds: seq<seq<PrinterEvent>>)

  datatype Op = Browse(current: seq<Printer>) | List(subscribes: bool)

  /** Every posted event reaches every subscriber. */
  function Broadcast(feeds: seq<seq<PrinterEvent>>, events: seq<PrinterEvent>): (r: seq<seq<PrinterEvent>>) {
    seq(|feeds|, i requires 0 <= i < |feeds| => feeds[i] + events)
  }

  function Step(s: State, op: Op): State {
    match op
    case Browse(current) => State(current, Broadcast(s.feeds, Diff(s.known, current)))
    case List(subscribes) =>
      if subscribes then State(s.known, Broadcast(s.feeds + [[]], Missing(s.known, [], Add))) else s
  }

  function Run(s: State, ops: seq<Op>): State
    decreases |ops|
  {
    if ops == [] then s else Run(Step(s, ops[0]), ops[1..])
  }

  // ------------------------------------------------------------------- the code

  class Browser {
    var known: seq<Printer>
    ghost var feeds: seq<seq<PrinterEvent>>

    constructor ()
      ensures known == [] && feeds == []
    {
      known, feeds := [], [];
    }

    method Post(e: PrinterEvent)
      modifies `feeds
      ensures feeds == Broadcast(old(feeds), [e])
    {
      feeds := Broadcast(feeds, [e]);
    }

    /** Posts an event for each of `printers` whose id is not among `others`. */
    method PostMissing(printers: seq<Printer>, others: seq<Printer>, kind: Kind)
      modifies `feeds
      ensures feeds == Broadcast(old(feeds), Missing(printers, others, kind))
    {
      BroadcastNothing(feeds);
      for i := 0 to |printers|
        invariant feeds == Broadcast(old(feeds), Missing(printers[..i], others, kind))
      {
        assert printers[..i + 1][..i] == printers[..i];
        var found := Find(others, printers[i].id);
        if !found {
          BroadcastTwice(old(feeds), Missing(printers[..i], others, kind), [EventFor(printers[i], kind)]);
          Post(EventFor(printers[i], kind));
        }
      }
      assert printers[..|printers|] == printers;
    }

    /** browse_printers: Adds for what is new, then Rmvs for what is gone. */
    method Browse(current: seq<Printer>)
      modifies this
      ensures State(known, feeds) == Step(old(State(known, feeds)), Op.Browse(current))
    {
      PostMissing(current, known, Add);
      PostMissing(known, current, Rmv);
      BroadcastTwice(old(feeds), Missing(current, known, Add), Missing(known, current, Rmv));
      known := current;
    }

    /** printers_list: a new subscriber is told what is known already, and so is everybody else. */
    method List(subscribes: bool)
      modifies this
      ensures State(known, feeds) == Step(old(State(known, feeds)), Op.List(subscribes))
    {
      if subscribes {
        feeds := feeds + [[]];
        PostMissing(known, [], Add);
      }
    }
  }

  method Find(printers: seq<Printer>, id: string) returns (found: bool)
    ensures found <==> Lists(printers, id)
  {
    for i := 0 to |printers|
      invariant forall j :: 0 <= j < i ==> printers[j].id != id
    {
      if printers[i].id == id { return true; }
    }
    return false;
  }

  lemma BroadcastNothing(feeds: seq<seq<PrinterEvent>>)
    ensures Broadcast(feeds, []) == feeds
  {
    assert forall i :: 0 <= i < |feeds| ==> feeds[i] + [] == feeds[i];
  }

  lemma BroadcastTwice(feeds: seq<seq<PrinterEvent>>, a: seq<PrinterEvent>, b: seq<PrinterEvent>)
    ensures Broadcast(Broadcast(feeds, a), b) == Broadcast(feeds, a + b)
  {
    assert forall i :: 0 <= i < |feeds| ==> (feeds[i] + a) + b == feeds[i] + (a + b);
  }

  // -------------------------------------------------------- what a client makes of it

  /** The ids a client believes in after some events: Add puts one in, Rmv takes it out. */
  ghost function Follow(ids: set<string>, feed: seq<PrinterEvent>): set<string> {
    if feed == [] then ids
    else
      var before := Follow(ids, feed[..|feed| - 1]);
      var e := feed[|feed| - 1];
      if e.kind == Add then before + {e.id} else before - {e.id}
  }

  ghost function Ids(printers: seq<Printer>): set<string> {
    set i | 0 <= i < |printers| :: printers[i].id
  }

  lemma IdsAre(printers: seq<Printer>, id: string)
    ensures id in Ids(printers) <==> Lists(printers, id)
  {}

  lemma IdsAppend(printers: seq<Printer>, p: Printer)
    ensures Ids(printers + [p]) == Ids(printers) + {p.id}
  {
    var all := printers + [p];
    assert all[|printers|] == p && forall i :: 0 <= i < |printers| ==> all[i] == printers[i];
    forall id
      ensures id in Ids(all) <==> id in Ids(printers) + {p.id}
    {
      IdsAre(all, id);
      IdsAre(printers, id);
    }
  }

  lemma {:induction false} FollowConcat(ids: set<string>, a: seq<PrinterEvent>, b: seq<PrinterEvent>)
    ensures Follow(ids, a + b) == Follow(Follow(ids, a), b)
  {
    if b == [] {
      assert a + b == a;
    } else {
      assert (a + b)[..|a + b| - 1] == a + b[..|b| - 1];
      FollowConcat(ids, a, b[..|b| - 1]);
    }
  }

  /** The Adds of a list put in exactly its ids not among the others, the Rmvs take exactly those out. */
  lemma {:induction false} FollowMissing(ids: set<string>, printers: seq<Printer>, others: seq<Printer>, kind: Kind)
    ensures Follow(ids, Missing(printers, others, kind))
            == if kind == Add then ids + (Ids(printers) - Ids(others)) else ids - (Ids(printers) - Ids(others))
  {
    if printers != [] {
      var init, last := printers[..|printers| - 1], printers[|printers| - 1];
      FollowMissing(ids, init, others, kind);
      assert printers == init + [last];
      IdsAre(others, last.id);
      IdsAppend(init, last);
      hide Ids, Lists;
      var rest := Missing(init, others, kind);
      if !Lists(others, last.id) {
        assert (rest + [EventFor(last, kind)])[..|rest|] == rest;
      }
    }
  }

  /** A diff turns the known ids into the current ones. */
  lemma DiffUpdates(known: seq<Printer>, current: seq<Printer>)
    ensures Follow(Ids(known), Diff(known, current)) == Ids(current)
  {
    FollowConcat(Ids(known), Missing(current, known, Add), Missing(known, current, Rmv));
    FollowMissing(Ids(known), current, known, Add);
    FollowMissing(Ids(known) + (Ids(current) - Ids(known)), known, current, Rmv);
  }

  /** And it never adds an id that was known, nor removes one that was not or that is still there. */
  lemma DiffIsMinimal(known: seq<Printer>, current: seq<Printer>, k: int)
    requires 0 <= k < |Diff(known, current)|
    ensures var e := Diff(known, current)[k];
            match e.kind
            case Add => e.id in Ids(current) && e.id !in Ids(known)
            case Rmv => e.id in Ids(known) && e.id !in Ids(current)
  {
    var adds, rmvs := Missing(current, known, Add), Missing(known, current, Rmv);
    if k < |adds| {
      assert Diff(known, current)[k] == adds[k];
      MissingAt(current, known, Add, k);
    } else {
      assert Diff(known, current)[k] == rmvs[k - |adds|];
      MissingAt(known, current, Rmv, k - |adds|);
    }
  }

  lemma {:induction false} MissingAt(printers: seq<Printer>, others: seq<Printer>, kind: Kind, k: int)
    requires 0 <= k < |Missing(printers, others, kind)|
    ensures var e := Missing(printers, others, kind)[k];
            e.kind == kind && e.id in Ids(printers) && e.id !in Ids(others)
  {
    var init, last := printers[..|printers| - 1], printers[|printers| - 1];
    if k < |Missing(init, others, kind)| {
      MissingAt(init, others, kind, k);
      IdsAre(init, Missing(init, others, kind)[k].id);
      var i :| 0 <= i < |init| && init[i].id == Missing(init, others, kind)[k].id;
      assert printers[i] == init[i];
    } else {
      IdsAre(others, last.id);
    }
  }

  /** e is about p: its id, name and address, and whether it was found or entered. */
  ghost predicate Tells(e: PrinterEvent, p: Printer) {
    && e.id == p.id && e.name == p.name && e.address == p.address
    && e.source == if p.isDiscovered then "fromZeroconf" else "fromManualAdd"
  }

  lemma {:induction false} MissingTells(printers: seq<Printer>, others: seq<Printer>, kind: Kind, k: int)
    requires 0 <= k < |Missing(printers, others, kind)|
    ensures exists i :: 0 <= i < |printers| && Tells(Missing(printers, others, kind)[k], printers[i])
  {
    var init, last := printers[..|printers| - 1], printers[|printers| - 1];
    if k < |Missing(init, others, kind)| {
      MissingTells(init, others, kind, k);
      var i :| 0 <= i < |init| && Tells(Missing(init, others, kind)[k], init[i]);
      assert printers[i] == init[i];
    } else {
      assert Tells(Missing(printers, others, kind)[k], last);
    }
  }

  /** Only ids count: a browse is silent exactly if the ids are the same, even when names or addresses changed. */
  lemma SilentIffSameIds(known: seq<Printer>, current: seq<Printer>)
    ensures Diff(known, current) == [] <==> Ids(known) == Ids(current)
  {
    hide Ids;
    if Diff(known, current) == [] {
      DiffUpdates(known, current);
    } else {
      DiffIsMinimal(known, current, 0);
    }
  }

  /** A printer that changes its name between two browses is one it is silent about. */
  lemma RenameUnseen(id: string, a: string, b: string, address: string)
    ensures Diff([Printer(id, a, address, true)], [Printer(id, b, address, true)]) == []
  {
    var x, y := [Printer(id, a, address, true)], [Printer(id, b, address, true)];
    assert x[0].id == id && y[0].id == id;
    forall k
      ensures k in Ids(x) <==> k in Ids(y)
    {
      IdsAre(x, k);
      IdsAre(y, k);
    }
    SilentIffSameIds(x, y);
  }

  // ------------------------------------------------------------------ whole runs

  ghost predicate InStep(known: seq<Printer>, feed: seq<PrinterEvent>) {
    Follow({}, feed) == Ids(known)
  }

  ghost predicate FeedInv(s: State) {
    forall i :: 0 <= i < |s.feeds| ==> InStep(s.known, s.feeds[i])
  }

  lemma FeedStep(s: State, op: Op)
    requires FeedInv(s)
    ensures FeedInv(Step(s, op))
  {
    var s' := Step(s, op);
    forall i | 0 <= i < |s'.feeds|
      ensures InStep(s'.known, s'.feeds[i])
    {
      match op
      case Browse(current) =>
        FollowConcat({}, s.feeds[i], Diff(s.known, current));
        DiffUpdates(s.known, current);
      case List(subscribes) =>
        if subscribes {
          var feed := (s.feeds + [[]])[i];
          FollowConcat({}, feed, Missing(s.known, [], Add));
          FollowMissing(Follow({}, feed), s.known, [], Add);
        }
    }
  }

  /**
   * After any browses and subscriptions, whatever they find and however often an id is repeated, the events a
   * subscriber has seen since joining add up to exactly the ids of the known printers.
   */
  lemma FeedsAgree(ops: seq<Op>, i: nat)
    requires i < |Run(State([], []), ops).feeds|
    ensures var s := Run(State([], []), ops); Follow({}, s.feeds[i]) == Ids(s.known)
  {
    hide Run, Follow, Ids;
    FeedRun(State([], []), ops);
    assert InStep(Run(State([], []), ops).known, Run(State([], []), ops).feeds[i]);
  }

  lemma {:induction false} FeedRun(s: State, ops: seq<Op>)
    requires FeedInv(s)
    ensures FeedInv(Run(s, ops))
    decreases |ops|
  {
    if ops != [] {
      hide Step, FeedInv;
      FeedStep(s, ops[0]);
      FeedRun(Step(s, ops[0]), ops[1..]);
    }
  }

  /** A browse of the run found the printer e tells of. */
  ghost predicate Found(ops: seq<Op>, known: seq<Printer>, e: PrinterEvent) {
    || (exists i :: 0 <= i < |known| && Tells(e, known[i]))
    || (exists j, i :: 0 <= j < |ops| && ops[j].Browse? && 0 <= i < |ops[j].current| && Tells(e, ops[j].current[i]))
  }

  /** What a step posts is about a printer known before or found by it. */
  lemma PostedTells(s: State, op: Op, e: PrinterEvent)
    requires e in if op.Browse? then Diff(s.known, op.current) else Missing(s.known, [], Add)
    ensures Found([op], s.known, e)
  {
    if op.Browse? {
      assert [op][0] == op;
      var adds, rmvs := Missing(op.current, s.known, Add), Missing(s.known, op.current, Rmv);
      var k :| 0 <= k < |adds + rmvs| && (adds + rmvs)[k] == e;
      if k < |adds| { MissingTells(op.current, s.known, Add, k); } else { MissingTells(s.known, op.current, Rmv, k - |adds|); }
    } else {
      var k :| 0 <= k < |Missing(s.known, [], Add)| && Missing(s.known, [], Add)[k] == e;
      MissingTells(s.known, [], Add, k);
    }
  }

  lemma StepTells(s: State, op: Op, i: nat, e: PrinterEvent)
    requires i < |Step(s, op).feeds| && e in Step(s, op).feeds[i]
    ensures (i < |s.feeds| && e in s.feeds[i]) || Found([op], s.known, e)
  {
    var posted := if op.Browse? then Diff(s.known, op.current) else Missing(s.known, [], Add);
    if e in posted {
      PostedTells(s, op, e);
    } else {
      hide Found;
    }
  }

  lemma FoundEarlier(s: State, op: Op, rest: seq<Op>, e: PrinterEvent)
    requires Found(rest, Step(s, op).known, e) || Found([op], s.known, e)
    ensures Found([op] + rest, s.known, e)
  {
    var ops := [op] + rest;
    assert ops[0] == op && forall j :: 0 <= j < |rest| ==> ops[j + 1] == rest[j];
  }

  /** Every event of every feed of every run tells of a printer known at its start or found by one of its browses. */
  lemma {:induction false} FeedTells(s: State, ops: seq<Op>, i: nat, e: PrinterEvent)
    requires i < |Run(s, ops).feeds| && e in Run(s, ops).feeds[i]
    ensures (i < |s.feeds| && e in s.feeds[i]) || Found(ops, s.known, e)
    decreases |ops|
  {
    if ops != [] {
      hide Step, Found;
      FeedTells(Step(s, ops[0]), ops[1..], i, e);
      if !Found(ops[1..], Step(s, ops[0]).known, e) { StepTells(s, ops[0], i, e); }
      if Found(ops[1..], Step(s, ops[0]).known, e) || Found([ops[0]], s.known, e) { FoundEarlier(s, ops[0], ops[1..], e); }
      assert [ops[0]] + ops[1..] == ops;
    }
  }
}
