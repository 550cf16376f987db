/** allAtOnce against the long-hand path: open, edit autoScale, add every file, close. */
module JobRefinement {
  import opened Prelude
  import opened PrintableArea
  import opened CupsOptions
  import opened CupsSubmit
  import opened EditParams
  import opened JobModel
  import opened JobSteps
  import opened JobInvariants

  /** One addFile per path, without page numbers. */
  function AddAll(id: int, paths: seq<string>): seq<Op> {
    if paths == [] then [] else [AddFile(id, paths[0], Printable, None, None)] + AddAll(id, paths[1..])
  }

  /** The page events of n files added to a job that holds `from`. */
  function Pages(from: nat, n: nat, totalPages: int): seq<Event>
    decreases n
  {
    if n == 0 then [] else [PageStart(from + 1, totalPages)] + Pages(from + 1, n - 1, totalPages)
  }

  /** The table with job id holding more files, and its stream more events. */
  function With(s: Service, id: int, files: seq<string>, events: seq<Event>): Service
    requires id in s.table && id in s.streams
  {
    s.(table := s.table[id := s.table[id].(files := s.table[id].files + files)],
       streams := s.streams[id := s.streams[id] + events])
  }

  lemma AddOne(s: Service, id: int, path: string)
    requires id in s.table && s.table[id].phase.Open? && id in s.streams
    ensures Step(s, AddFile(id, path, Printable, None, None)).0
            == With(s, id, [path], [PageStart(|s.table[id].files| + 1, s.table[id].totalPages)])
  {}

  lemma WithTwice(s: Service, id: int, f: seq<string>, g: seq<string>, e: seq<Event>, d: seq<Event>)
    requires id in s.table && id in s.streams
    ensures With(With(s, id, f, e), id, g, d) == With(s, id, f + g, e + d)
  {
    assert (s.table[id].files + f) + g == s.table[id].files + (f + g);
    assert (s.streams[id] + e) + d == s.streams[id] + (e + d);
  }

  lemma WithNothing(s: Service, id: int)
    requires id in s.table && id in s.streams
    ensures With(s, id, [], []) == s
  {
    assert s.table[id].files + [] == s.table[id].files && s.streams[id] + [] == s.streams[id];
  }

  lemma {:induction false} AddAllRun(s: Service, id: int, paths: seq<string>)
    requires id in s.table && s.table[id].phase.Open? && id in s.streams
    ensures Run(s, AddAll(id, paths))
            == With(s, id, paths, Pages(|s.table[id].files|, |paths|, s.table[id].totalPages))
    decreases |paths|
  {
    if paths == [] {
      WithNothing(s, id);
    } else {
      var e := [PageStart(|s.table[id].files| + 1, s.table[id].totalPages)];
      AddOne(s, id, paths[0]);
      hide Step;
      var s1 := With(s, id, [paths[0]], e);
      AddAllRun(s1, id, paths[1..]);
      assert AddAll(id, paths)[1..] == AddAll(id, paths[1..]);
      WithTwice(s, id, [paths[0]], paths[1..], e, Pages(|s1.table[id].files|, |paths| - 1, s.table[id].totalPages));
      assert [paths[0]] + paths[1..] == paths;
    }
  }

  /** The long-hand path up to, but without, the close. */
  function LongHand(s: Service, op: Op): seq<Op>
    requires op.AllAtOnce? && FirstItemError(op.items).None?
  {
    [OpenJob(op.printer, op.description, op.appName, op.dirMade),
     Edit(s.nextId, NO_EDITS.(autoScale := op.autoScale))]
    + AddAll(s.nextId, PathsOf(op.items))
  }

  lemma {:induction false} PathsCount(items: seq<Item>)
    requires FirstItemError(items).None?
    ensures |PathsOf(items)| == |items|
  {
    if items != [] { PathsCount(items[1..]); }
  }

  lemma EditOfScale(p: PrintParams, scale: Option<bool>)
    requires !p.borderless
    ensures Edited(p, NO_EDITS.(autoScale := scale)) == (p.(autoScale := Or(scale, p.autoScale)), None)
  {}

  /** The long-hand path reaches the same table as allAtOnce, but for the page total and the page events. */
  lemma LongHandFills(s: Service, op: Op)
    requires TableInv(s) && op.AllAtOnce? && FirstItemError(op.items).None?
    ensures var s1 := Filled(s, op.printer, op.description, op.appName, op.dirMade, op.autoScale, op.items);
            var id := s.nextId;
            && id in s1.table && id in s1.streams && s1.streams[id] == [] && s1.table[id].totalPages == |s1.table[id].files|
            && Run(s, LongHand(s, op))
               == s1.(table := s1.table[id := s1.table[id].(totalPages := -1)],
                      streams := s1.streams[id := Pages(0, |op.items|, -1)])
  {
    hide FirstItemError, PathsOf, Pages, Step;
    var id := s.nextId;
    var b := OpenThenEdit(s, op);
    AddAllRun(b, id, PathsOf(op.items));
    PathsCount(op.items);
    assert b.table[id].files + PathsOf(op.items) == PathsOf(op.items);
    assert b.streams[id] + Pages(0, |op.items|, -1) == Pages(0, |op.items|, -1);
  }

  /** After the first two operations: the new job, empty, with its scaling set. */
  lemma OpenThenEdit(s: Service, op: Op) returns (b: Service)
    requires TableInv(s) && op.AllAtOnce? && FirstItemError(op.items).None?
    ensures Run(s, LongHand(s, op)) == Run(b, AddAll(s.nextId, PathsOf(op.items)))
    ensures var job := FreshJob(s.nextId, op.printer, op.description, op.appName, op.dirMade, s.clock);
            var opened' := Opened(s, op.printer, op.description, op.appName, op.dirMade);
            b == opened'.(table := opened'.table[s.nextId :=
                   job.(params := job.params.(autoScale := Or(op.autoScale, job.params.autoScale)))])
            && s.nextId in b.streams && b.streams[s.nextId] == []
  {
    hide JobOk, FirstItemError, PathsOf, Edited;
    var open := OpenJob(op.printer, op.description, op.appName, op.dirMade);
    var edit := Edit(s.nextId, NO_EDITS.(autoScale := op.autoScale));
    var a := Step(s, open).0;
    EditOfScale(a.table[s.nextId].params, op.autoScale);
    b := Step(a, edit).0;
    TwoFirst(s, open, edit, AddAll(s.nextId, PathsOf(op.items)));
  }

  lemma TwoFirst(s: Service, a: Op, b: Op, rest: seq<Op>)
    ensures Run(s, [a, b] + rest) == Run(Step(Step(s, a).0, b).0, rest)
  {
    hide Step;
    assert ([a, b] + rest)[1..] == [b] + rest;
    assert ([b] + rest)[1..] == rest;
  }

  /** Everything but one job's record and stream agrees. */
  ghost predicate AgreeBut(s: Service, t: Service, id: int) {
    && s.table - {id} == t.table - {id} && s.streams - {id} == t.streams - {id}
    && s.nextId == t.nextId && s.polling == t.polling && s.clock == t.clock
    && s.cups == t.cups && s.submissions == t.submissions && s.handed == t.handed
  }

  /** The page total of a job plays no part in its submission, and is the number of files afterwards. */
  lemma SubmitIgnoresTotal(s: Service, id: int, pages: seq<Event>, maxResolution: Option<int>, w: World)
    requires id in s.table && id in s.streams && s.streams[id] == [] && s.table[id].files != []
    requires s.table[id].totalPages == |s.table[id].files|
    ensures var t := s.(table := s.table[id := s.table[id].(totalPages := -1)], streams := s.streams[id := pages]);
            var (s', err) := SubmitJob(s, id, maxResolution, w);
            var (t', err') := SubmitJob(t, id, maxResolution, w);
            && err == err' && AgreeBut(s', t', id)
            && (err.None? ==> s'.table == t'.table && id in s'.streams && id in t'.streams
                              && t'.streams[id] == pages + s'.streams[id])
            && (err.Some? ==> s'.table == s.table && t'.table == t.table && s'.streams == s.streams && t'.streams == t.streams)
  {
    hide SubmitCalls, BuildParams;
    var t := s.(table := s.table[id := s.table[id].(totalPages := -1)], streams := s.streams[id := pages]);
    assert SubmissionOf(s.table[id], maxResolution, w) == SubmissionOf(t.table[id], maxResolution, w);
    var (s', err) := SubmitJob(s, id, maxResolution, w);
    var (t', err') := SubmitJob(t, id, maxResolution, w);
    if err.None? {
      assert s'.table[id] == t'.table[id];
      assert s'.table == t'.table;
    }
    assert s'.table - {id} == s.table - {id} == t.table - {id} == t'.table - {id};
    assert s'.streams - {id} == s.streams - {id} == t.streams - {id} == t'.streams - {id};
  }

  lemma CloseIsSubmit(s: Service, id: int, maxResolution: Option<int>, w: World)
    requires id in s.table && s.table[id].phase.Open? && s.table[id].files != []
    ensures var (s1, err) := SubmitJob(s, id, maxResolution, w);
            && id in s1.table
            && StepClose(s, id, maxResolution, w)
               == (if err.None? then (s1, Success) else (Finish(s1, id, Done, "Error"), Failure(err.value)))
  {
    hide Finish;
    SubmitKeepsJob(s, id, maxResolution, w);
  }

  /** Refused: allAtOnce reports the error and drops the job, the long-hand path reports it and keeps the job. */
  lemma FailureAgrees(s: Service, t: Service, id: int, job: Job)
    requires AgreeBut(s, t, id) && id in t.table && job == t.table[id].(totalPages := job.totalPages)
    ensures var e := StateEvent(job, "DONE", Some("Error"), [], s.clock);
            var s1, t1 := Remove(s.(streams := Post(s.streams, id, e)), id), Finish(t, id, Done, "Error");
            && AgreeBut(s1, t1, id) && id !in s1.table && id in t1.table && t1.table[id].phase.Done?
            && StreamOf(s1.streams, id) == StreamOf(s.streams, id) + [e]
            && StreamOf(t1.streams, id) == StreamOf(t.streams, id) + [e]
  {
    var e := StateEvent(job, "DONE", Some("Error"), [], s.clock);
    DoneIgnoresTotal(t.table[id], job.totalPages, "Error", s.clock);
    var s1, t1 := Remove(s.(streams := Post(s.streams, id, e)), id), Finish(t, id, Done, "Error");
    hide StateEvent, Freed;
    assert s1.table - {id} == s.table - {id} && t1.table - {id} == t.table - {id};
    assert s1.streams - {id} == s.streams - {id} && t1.streams - {id} == t.streams - {id};
  }

  /** A DONE event carries no page total. */
  lemma DoneIgnoresTotal(job: Job, total: int, status: string, now: int)
    ensures StateEvent(job.(totalPages := total), "DONE", Some(status), [], now)
            == StateEvent(job, "DONE", Some(status), [], now)
  {}

  /**
   * What allAtOnce (s, r) and the long-hand close (s', r') have in common: they succeed and fail together, with
   * the same error, the same traffic with CUPS, the same submission on record and the same timer, and the
   * long-hand stream of the job only has the page events in front. On success they leave the same job records.
   * On failure allAtOnce drops the job, and the long-hand path keeps it as DONE.
   */
  ghost predicate Refines(s: Service, r: Reply, s': Service, r': Reply, id: int, pages: seq<Event>) {
    && AgreeBut(s, s', id)
    && StreamOf(s'.streams, id) == pages + StreamOf(s.streams, id)
    && (r == NewJob(id) <==> r' == Success)
    && (r == NewJob(id) ==> s.table == s'.table)
    && (r != NewJob(id) ==> r == r' && id !in s.table && id in s'.table && s'.table[id].phase.Done?)
  }

  lemma SubmitFilledAgainstClose(s: Service, id: int, pages: seq<Event>, maxResolution: Option<int>, w: World)
    requires id in s.table && id in s.streams && s.streams[id] == [] && s.table[id].files != []
    requires s.table[id].totalPages == |s.table[id].files| && s.table[id].phase.Open?
    ensures var t := s.(table := s.table[id := s.table[id].(totalPages := -1)], streams := s.streams[id := pages]);
            var (s1, r1) := SubmitFilled(s, id, maxResolution, w);
            var (t1, r2) := StepClose(t, id, maxResolution, w);
            Refines(s1, r1, t1, r2, id, pages)
  {
    var t := s.(table := s.table[id := s.table[id].(totalPages := -1)], streams := s.streams[id := pages]);
    CloseIsSubmit(t, id, maxResolution, w);
    SubmitIgnoresTotal(s, id, pages, maxResolution, w);
    var s1, err, cupsId, e := SubmitFilledCases(s, id, maxResolution, w);
    var (t1, err') := SubmitJob(t, id, maxResolution, w);
    hide SubmitJob, SubmitFilled, StateEvent, StepClose, AgreeBut, Finish, Remove, Queued, Recorded, Post;
    if err.Some? {
      FailureAgrees(s1, t1, id, s.table[id]);
      assert StreamOf(s1.streams, id) == [] && StreamOf(t1.streams, id) == pages;
      assert [] + [e] == [e];
    }
  }

  /** allAtOnce over good paths refines opening, editing, adding every file and closing. */
  lemma AllAtOnceRefinesLongHand(s: Service, op: Op)
    requires TableInv(s) && op.AllAtOnce? && op.items != [] && FirstItemError(op.items).None?
    ensures var (s1, r1) := Step(s, op);
            var (s2, r2) := Step(Run(s, LongHand(s, op)), Close(s.nextId, op.maxResolution, op.world));
            Refines(s1, r1, s2, r2, s.nextId, Pages(0, |op.items|, -1))
  {
    hide SubmitFilled, TableInv, Run, LongHand, FirstItemError, Pages, StepClose, Refines;
    LongHandFills(s, op);
    FilledIsOpen(s, op.printer, op.description, op.appName, op.dirMade, op.autoScale, op.items);
    FilledHasFiles(s, op);
    hide Filled;
    SubmitFilledAgainstClose(Filled(s, op.printer, op.description, op.appName, op.dirMade, op.autoScale, op.items),
                             s.nextId, Pages(0, |op.items|, -1), op.maxResolution, op.world);
  }

  lemma FilledHasFiles(s: Service, op: Op)
    requires op.AllAtOnce? && op.items != [] && FirstItemError(op.items).None?
    ensures Filled(s, op.printer, op.description, op.appName, op.dirMade, op.autoScale, op.items).table[s.nextId].files != []
  {
    hide FirstItemError;
    PathsCount(op.items);
  }

  /**
   * An allAtOnce that fails leaves the table as it was, but for the consumed job id; a bad path is found before
   * anything is said to CUPS.
   */
  lemma FailedAllAtOnceLeavesTable(s: Service, op: Op)
    requires TableInv(s) && op.AllAtOnce? && Step(s, op).1.Failure?
    ensures var s' := Step(s, op).0;
            && s'.table == s.table && s'.polling == s.polling && s'.handed == s.handed
            && s'.nextId == (if op.items == [] then s.nextId else s.nextId + 1)
            && (FirstItemError(op.items).Some? ==>
                  s'.cups == s.cups && s'.submissions == s.submissions && Step(s, op).1.err == FirstItemError(op.items).value)
  {
    var s1 := AllAtOnceCases(s, op);
    hide Step, Filled, Opened, SubmitFilled, TableInv, Joined, Freed, FirstItemError;
    if op.items != [] {
      JoinedAndBack(s, s1);
      if FirstItemError(op.items).None? { RefusedFilled(s1, s.nextId, op.maxResolution, op.world); }
    }
  }

  /** A new job that is taken out again leaves nothing but the used id. */
  lemma JoinedAndBack(s: Service, s1: Service)
    requires TableInv(s) && Joined(s, s1)
    ensures s1.table - {s.nextId} == s.table && s1.nextId == s.nextId + 1 && s.nextId in s1.table
    ensures s1.polling == s.polling && s1.handed == s.handed && s1.cups == s.cups && s1.submissions == s.submissions
  {
    hide JobOk, IsNew;
    assert s.nextId !in s.table;
  }

  lemma RefusedFilled(s: Service, id: int, maxResolution: Option<int>, w: World)
    requires id in s.table && SubmitFilled(s, id, maxResolution, w).1.Failure?
    ensures var s' := SubmitFilled(s, id, maxResolution, w).0;
            s'.table == s.table - {id} && s'.polling == s.polling && s'.handed == s.handed && s'.nextId == s.nextId
  {
    var s1, err, cupsId, e := SubmitFilledCases(s, id, maxResolution, w);
    hide SubmitFilled, SubmitJob, Queued, Freed;
  }
}
