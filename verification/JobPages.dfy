/** Page numbers and page events against the files of a job, over whole runs. */
module JobPages {
  import opened Prelude
  import opened CupsOptions
  import opened CupsSubmit
  import opened EditParams
  import opened SpoolPaths
  import opened JobModel
  import opened JobSteps
  import opened JobInvariants
  import opened JobStreams
  import opened JobHistory

  // --------------------------------------------------------------- one step, one job

  function PageCount(t: seq<Event>): nat {
    if t == [] then 0 else (if t[0].PageStart? then 1 else 0) + PageCount(t[1..])
  }

  lemma {:induction false} PageCountConcat(s: seq<Event>, t: seq<Event>)
    ensures PageCount(s + t) == PageCount(s) + PageCount(t)
  {
    if s == [] {
      assert s + t == t;
    } else {
      assert (s + t)[1..] == s[1..] + t;
      PageCountConcat(s[1..], t);
    }
  }

  lemma PageCountOne(e: Event)
    ensures PageCount([e]) == if e.PageStart? then 1 else 0
  {
    assert [e][1..] == [];
  }

  /** op is an addFile of this job that is accepted. */
  predicate Adds(s: Service, op: Op, id: int) {
    op.AddFile? && op.jobId == id && Step(s, op).1.Success?
  }

  /** Same files, same current page, and at most events that start no page. */
  ghost predicate Unpaged(s: Service, s': Service, id: int) {
    && id in s.table && id in s'.table
    && s'.table[id].files == s.table[id].files && s'.table[id].currentPage == s.table[id].currentPage
    && exists events :: StreamOf(s'.streams, id) == StreamOf(s.streams, id) + events && PageCount(events) == 0
  }

  lemma UnpagedSame(s: Service, s': Service, id: int)
    requires Same(s, s', id)
    ensures Unpaged(s, s', id)
  {
    assert StreamOf(s'.streams, id) == StreamOf(s.streams, id) + [];
  }

  lemma UnpagedPost(s: Service, s': Service, id: int, k: int, e: Event)
    requires id in s.table && id in s'.table && s'.streams == Post(s.streams, k, e) && !e.PageStart?
    requires s'.table[id].files == s.table[id].files && s'.table[id].currentPage == s.table[id].currentPage
    ensures Unpaged(s, s', id)
  {
    PageCountOne(e);
    var events := if k == id then [e] else [];
    assert StreamOf(s'.streams, id) == StreamOf(s.streams, id) + events;
  }

  lemma UnpagedTwice(s: Service, s1: Service, s2: Service, id: int)
    requires Unpaged(s, s1, id) && Unpaged(s1, s2, id)
    ensures Unpaged(s, s2, id)
  {
    var a :| StreamOf(s1.streams, id) == StreamOf(s.streams, id) + a && PageCount(a) == 0;
    var b :| StreamOf(s2.streams, id) == StreamOf(s1.streams, id) + b && PageCount(b) == 0;
    PageCountConcat(a, b);
    assert StreamOf(s2.streams, id) == StreamOf(s.streams, id) + (a + b);
  }

  lemma SubmitUnpaged(s: Service, k: int, maxResolution: Option<int>, w: World, id: int)
    requires k in s.table && id in s.table
    ensures Unpaged(s, SubmitJob(s, k, maxResolution, w).0, id)
  {
    var (s', err) := SubmitJob(s, k, maxResolution, w);
    if err.None? {
      var job := s'.table[k].(lastPrinterState := s.table[k].lastPrinterState);
      hide SubmissionOf, Unpaged;
      UnpagedPost(s, s', id, k, StateEvent(job, "QUEUED", None, [], s.clock));
    } else {
      hide SubmissionOf, Unpaged;
      UnpagedSame(s, s', id);
    }
  }

  lemma FinishUnpaged(s: Service, k: int, phase: Phase, status: string, id: int)
    requires k in s.table && id in s.table
    ensures Unpaged(s, Finish(s, k, phase, status), id)
  {
    hide Unpaged;
    UnpagedPost(s, Finish(s, k, phase, status), id, k, StateEvent(s.table[k], "DONE", Some(status), [], s.clock));
  }

  lemma CloseUnpaged(s: Service, k: int, maxResolution: Option<int>, w: World, id: int)
    requires id in s.table
    ensures Unpaged(s, StepClose(s, k, maxResolution, w).0, id)
  {
    hide SubmitJob, Finish, Unpaged;
    if k in s.table && s.table[k].phase.Open? {
      if s.table[k].files == [] {
        FinishUnpaged(s, k, Done, "Success", id);
      } else {
        var (s1, err) := SubmitJob(s, k, maxResolution, w);
        SubmitUnpaged(s, k, maxResolution, w, id);
        UnpagedInTable(s, s1, id);
        SubmitKeepsJob(s, k, maxResolution, w);
        if err.Some? {
          FinishUnpaged(s1, k, Done, "Error", id);
          UnpagedTwice(s, s1, Finish(s1, k, Done, "Error"), id);
        }
      }
    } else {
      UnpagedSame(s, s, id);
    }
  }

  lemma UnpagedInTable(s: Service, s': Service, id: int)
    requires Unpaged(s, s', id)
    ensures id in s.table && id in s'.table
  {}

  lemma CancelUnpaged(s: Service, k: int, cupsCancels: bool, id: int)
    requires id in s.table
    ensures Unpaged(s, StepCancel(s, k, cupsCancels).0, id)
  {
    hide Unpaged;
    var s' := StepCancel(s, k, cupsCancels).0;
    if StepCancel(s, k, cupsCancels).1.Success? {
      UnpagedPost(s, s', id, k, StateEvent(s.table[k], "DONE", Some("Cancelled"), [], s.clock));
    } else {
      UnpagedSame(s, s', id);
    }
  }

  lemma PollUnpaged(s: Service, answers: int -> Option<CupsJobState>, id: int)
    requires TableInv(s) && id in s.table
    ensures Unpaged(s, StepPoll(s, answers), id)
  {
    hide StateEvent, JobOk;
    var events := PollJob(s.table[id], answers(id), s.clock).1;
    assert StreamOf(StepPoll(s, answers).streams, id) == StreamOf(s.streams, id) + events;
    assert PageCount(events) == 0 by {
      PollPostsNoPage(s.table[id], answers(id), s.clock);
    }
  }

  lemma PollPostsNoPage(job: Job, answer: Option<CupsJobState>, now: nat)
    ensures PageCount(PollJob(job, answer, now).1) == 0
  {
    var events := PollJob(job, answer, now).1;
    if events != [] {
      assert events == [events[0]];
      PageCountOne(events[0]);
    }
  }

  lemma OtherAddUnpaged(s: Service, op: Op, id: int)
    requires id in s.table && op.AddFile? && !Adds(s, op, id)
    ensures Unpaged(s, Step(s, op).0, id)
  {
    hide Unpaged;
    UnpagedSame(s, Step(s, op).0, id);
  }

  lemma StepUnpaged(s: Service, op: Op, id: int)
    requires TableInv(s) && id in s.table && !Adds(s, op, id)
    ensures Unpaged(s, Step(s, op).0, id)
  {
    var s' := Step(s, op).0;
    match op
    case Close(k, maxResolution, w) => CloseUnpaged(s, k, maxResolution, w, id);
    case Cancel(k, cupsCancels) => CancelUnpaged(s, k, cupsCancels, id);
    case Poll(answers) => PollUnpaged(s, answers, id);
    case AddFile(_, _, _, _, _) => OtherAddUnpaged(s, op, id);
    case AllAtOnce(_, _, _, _, _, _, _, _) =>
      hide JobOk, Unpaged, Step;
      AllAtOnceElsewhere(s, op, id);
      UnpagedSame(s, s', id);
    case _ => QuietUnpaged(s, op, id);
  }

  lemma QuietUnpaged(s: Service, op: Op, id: int)
    requires TableInv(s) && id in s.table
    requires op.Advance? || op.OpenJob? || op.Edit? || op.NewTempFile? || op.QueryCapabilities?
    ensures Unpaged(s, Step(s, op).0, id)
  {
    hide JobOk, StepEdit, StepNewTempFile, Unpaged, Opened;
    match op
    case Edit(k, edits) => EditUnpaged(s, k, edits, id);
    case NewTempFile(k, ext, size, created, reserved) => NewTempFileUnpaged(s, k, ext, size, created, reserved, id);
    case OpenJob(printer, description, appName, dirMade) =>
      OpenedJoins(s, printer, description, appName, dirMade);
      JoinedElsewhere(s, Opened(s, printer, description, appName, dirMade), id);
      UnpagedSame(s, Step(s, op).0, id);
    case Advance(elapsed) => UnpagedSame(s, Step(s, op).0, id);
    case QueryCapabilities(printer) => UnpagedSame(s, Step(s, op).0, id);
  }

  /** Same files and page, and the same streams. */
  lemma UnpagedQuiet(s: Service, s': Service, id: int)
    requires id in s.table && id in s'.table && s'.streams == s.streams
    requires s'.table[id].files == s.table[id].files && s'.table[id].currentPage == s.table[id].currentPage
    ensures Unpaged(s, s', id)
  {
    assert StreamOf(s'.streams, id) == StreamOf(s.streams, id) + [];
    PageCountNone();
  }

  lemma EditUnpaged(s: Service, k: int, edits: Edits, id: int)
    requires id in s.table
    ensures Unpaged(s, StepEdit(s, k, edits).0, id)
  {
    hide Edited, Unpaged;
    UnpagedQuiet(s, StepEdit(s, k, edits).0, id);
  }

  lemma NewTempFileUnpaged(s: Service, k: int, ext: string, size: int, created: bool, reserved: bool, id: int)
    requires id in s.table
    ensures Unpaged(s, StepNewTempFile(s, k, ext, size, created, reserved).0, id)
  {
    hide TempPath, Unpaged;
    UnpagedQuiet(s, StepNewTempFile(s, k, ext, size, created, reserved).0, id);
  }

  lemma PageCountNone()
    ensures PageCount([]) == 0
  {}

  // ------------------------------------------------------------- page events and files

  /** Page events posted, less files held. */
  ghost function Excess(s: Service, id: int): int
    requires id in s.table
  {
    PageCount(StreamOf(s.streams, id)) - |s.table[id].files|
  }

  lemma ExcessStep(s: Service, op: Op, id: int)
    requires TableInv(s) && id in s.table
    ensures id in Step(s, op).0.table && Excess(Step(s, op).0, id) == Excess(s, id)
  {
    if Adds(s, op, id) {
      AddExcess(s, op, id);
    } else {
      StepUnpaged(s, op, id);
      hide Step, TableInv;
      var events :| StreamOf(Step(s, op).0.streams, id) == StreamOf(s.streams, id) + events && PageCount(events) == 0;
      PageCountConcat(StreamOf(s.streams, id), events);
    }
  }

  lemma AddExcess(s: Service, op: Op, id: int)
    requires id in s.table && Adds(s, op, id)
    ensures id in Step(s, op).0.table && Excess(Step(s, op).0, id) == Excess(s, id)
  {
    var job := Step(s, op).0.table[id];
    var e := PageStart(|job.files|, job.totalPages);
    PageCountConcat(StreamOf(s.streams, id), [e]);
    PageCountOne(e);
  }

  lemma {:induction false} ExcessRun(s: Service, ops: seq<Op>, id: int)
    requires TableInv(s) && id in s.table
    ensures id in Run(s, ops).table && Excess(Run(s, ops), id) == Excess(s, id)
    decreases |ops|
  {
    if ops != [] {
      hide Step, TableInv;
      ExcessStep(s, ops[0], id);
      TableStep(s, ops[0]);
      ExcessRun(Step(s, ops[0]).0, ops[1..], id);
    }
  }

  lemma ShapedPages(t: seq<Event>, n: nat)
    requires Shaped(t, n)
    ensures PageCount(t) == n
  {
    ShapeParts(t, n);
    hide Shaped;
    assert t == t[..n] + t[n..];
    PageCountConcat(t[..n], t[n..]);
    AllPages(t[..n]);
    NoPages(t[n..]);
  }

  lemma ShapeParts(t: seq<Event>, n: nat)
    requires Shaped(t, n)
    ensures n <= |t| && (forall i :: 0 <= i < n ==> t[..n][i].PageStart?)
    ensures forall i :: 0 <= i < |t| - n ==> !t[n..][i].PageStart?
  {
    forall i | 0 <= i < |t| - n
      ensures !t[n..][i].PageStart?
    {
      assert t[n..][i] == t[n + i] && (IsLive(t[n + i]) || IsDone(t[n + i]));
    }
  }

  lemma {:induction false} AllPages(t: seq<Event>)
    requires forall i :: 0 <= i < |t| ==> t[i].PageStart?
    ensures PageCount(t) == |t|
  {
    if t != [] { AllPages(t[1..]); }
  }

  lemma {:induction false} NoPages(t: seq<Event>)
    requires forall i :: 0 <= i < |t| ==> !t[i].PageStart?
    ensures PageCount(t) == 0
  {
    if t != [] { NoPages(t[1..]); }
  }

  /**
   * The page events of a job opened by open are as many as its files, at every later moment, closed or not; a job
   * of allAtOnce never has any.
   */
  lemma PagesAgainstFiles(s: Service, op: Op, ops: seq<Op>, n: nat)
    requires TableInv(s) && (op.OpenJob? || (op.AllAtOnce? && Step(s, op).1.NewJob?))
    requires Shaped(StreamOf(Run(Step(s, op).0, ops).streams, s.nextId), n)
    ensures var s' := Run(Step(s, op).0, ops);
            s.nextId in s'.table && n == if op.OpenJob? then |s'.table[s.nextId].files| else 0
  {
    var s1 := Step(s, op).0;
    TableStep(s, op);
    if op.OpenJob? { OpenedExcess(s, op); } else { AllAtOnceExcess(s, op); }
    hide Step, TableInv, Run, Shaped;
    ExcessRun(s1, ops, s.nextId);
    ShapedPages(StreamOf(Run(s1, ops).streams, s.nextId), n);
    if op.AllAtOnce? { FilesRun(s1, ops, s.nextId); }
  }

  lemma OpenedExcess(s: Service, op: Op)
    requires TableInv(s) && op.OpenJob?
    ensures s.nextId in Step(s, op).0.table && Excess(Step(s, op).0, s.nextId) == 0
  {
    hide JobOk;
  }

  lemma AllAtOnceExcess(s: Service, op: Op)
    requires TableInv(s) && op.AllAtOnce? && Step(s, op).1.NewJob?
    ensures var s1 := Step(s, op).0;
            && s.nextId in s1.table && !s1.table[s.nextId].phase.Open?
            && Excess(s1, s.nextId) == -|s1.table[s.nextId].files|
  {
    hide JobOk, SubmissionOf, PathsOf, FirstItemError, Unpaged;
    var s0 := Filled(s, op.printer, op.description, op.appName, op.dirMade, op.autoScale, op.items);
    SubmitUnpaged(s0, s.nextId, op.maxResolution, op.world, s.nextId);
    FilledIsOpen(s, op.printer, op.description, op.appName, op.dirMade, op.autoScale, op.items);
    AfterSubmit(s0, Step(s, op).0, s.nextId);
  }

  lemma AfterSubmit(s: Service, s': Service, id: int)
    requires Unpaged(s, s', id) && StreamOf(s.streams, id) == []
    ensures id in s'.table && Excess(s', id) == -|s'.table[id].files|
  {
    var events :| StreamOf(s'.streams, id) == StreamOf(s.streams, id) + events && PageCount(events) == 0;
    assert StreamOf(s.streams, id) + events == events;
  }

  /** The files of a job that is no longer open stay as they are. */
  lemma {:induction false} FilesRun(s: Service, ops: seq<Op>, id: int)
    requires TableInv(s) && id in s.table && !s.table[id].phase.Open?
    ensures id in Run(s, ops).table && Run(s, ops).table[id].files == s.table[id].files
    decreases |ops|
  {
    if ops != [] {
      NotOpenStep(s, ops[0], id);
      TableStep(s, ops[0]);
      hide Step, TableInv;
      FilesRun(Step(s, ops[0]).0, ops[1..], id);
    }
  }

  lemma NotOpenStep(s: Service, op: Op, id: int)
    requires TableInv(s) && id in s.table && !s.table[id].phase.Open?
    ensures var s' := Step(s, op).0;
            id in s'.table && !s'.table[id].phase.Open? && s'.table[id].files == s.table[id].files
  {
    if op.Cancel? && op.jobId == id {
      CancelNotOpen(s, id, op.cupsCancels);
    } else if op.Poll? {
      PollNotOpen(s, op.answers, id);
    } else {
      ClosedJobsRest(s, op, id);
      hide Step, TableInv;
      var job := Step(s, op).0.table[id];
      assert job.phase == job.(tempFiles := s.table[id].tempFiles).phase;
      assert job.files == job.(tempFiles := s.table[id].tempFiles).files;
    }
  }

  lemma CancelNotOpen(s: Service, id: int, cupsCancels: bool)
    requires id in s.table && !s.table[id].phase.Open?
    ensures var s' := StepCancel(s, id, cupsCancels).0;
            id in s'.table && !s'.table[id].phase.Open? && s'.table[id].files == s.table[id].files
  {
    hide StateEvent;
  }

  lemma PollNotOpen(s: Service, answers: int -> Option<CupsJobState>, id: int)
    requires id in s.table && !s.table[id].phase.Open?
    ensures var s' := StepPoll(s, answers);
            id in s'.table && !s'.table[id].phase.Open? && s'.table[id].files == s.table[id].files
  {
    hide StateEvent, PollEvents;
  }

  // -------------------------------------------------------------------- page numbers

  ghost predicate OnLastPage(s: Service, id: int) {
    id in s.table && s.table[id].currentPage == |s.table[id].files|
  }

  /** Whether the last accepted addFile of a run carried a page number; `before` if there was none. */
  function LastNumbered(s: Service, ops: seq<Op>, id: int, before: bool): bool
    decreases |ops|
  {
    if ops == [] then before
    else LastNumbered(Step(s, ops[0]).0, ops[1..], id,
                      if Adds(s, ops[0], id) then ops[0].currentPage.Some? else before)
  }

  lemma PageNumberStep(s: Service, op: Op, id: int)
    requires TableInv(s) && id in s.table
    ensures id in Step(s, op).0.table
    ensures OnLastPage(Step(s, op).0, id)
       <==> if Adds(s, op, id) then op.currentPage.Some? else OnLastPage(s, id)
  {
    hide Step, TableInv, Adds;
    if Adds(s, op, id) { AddPageNumber(s, op, id); } else { StepUnpaged(s, op, id); }
  }

  lemma AddPageNumber(s: Service, op: Op, id: int)
    requires TableInv(s) && id in s.table && Adds(s, op, id)
    ensures op.AddFile? && id in Step(s, op).0.table && (OnLastPage(Step(s, op).0, id) <==> op.currentPage.Some?)
  {
    assert JobOk(s.table[id]);
    hide StateEvent, TableInv, ValidParams;
  }

  /**
   * The current page of a job is the number of its files exactly if the last accepted addFile carried a page
   * number or, without any addFile, if it was so before.
   */
  lemma {:induction false} PageNumberRun(s: Service, ops: seq<Op>, id: int)
    requires TableInv(s) && id in s.table
    ensures OnLastPage(Run(s, ops), id) <==> LastNumbered(s, ops, id, OnLastPage(s, id))
    decreases |ops|
  {
    if ops != [] {
      hide Step, TableInv, OnLastPage, Adds;
      PageNumberStep(s, ops[0], id);
      TableStep(s, ops[0]);
      PageNumberRun(Step(s, ops[0]).0, ops[1..], id);
    }
  }

  /** It is so for a job just opened, and not for one of allAtOnce. */
  lemma PageNumberOfNew(s: Service, op: Op)
    requires TableInv(s) && (op.OpenJob? || (op.AllAtOnce? && Step(s, op).1.NewJob?))
    ensures s.nextId in Step(s, op).0.table
    ensures OnLastPage(Step(s, op).0, s.nextId) <==> op.OpenJob?
  {
    hide JobOk, SubmissionOf, StateEvent, SubmitCalls, PathsOf;
    if op.AllAtOnce? { PathsNotEmpty(op.items); }
  }

  /** Pages may go uncounted: after an addFile without a number the job has a file and is on page 0. */
  lemma UncountedPage(clock: nat)
    ensures var s := Run(InitialService(clock), [OpenJob("p", "d", "a", true), AddFile(1, "f", Printable, None, None)]);
            1 in s.table && |s.table[1].files| == 1 && s.table[1].currentPage == 0
  {
    var open, add := OpenJob("p", "d", "a", true), AddFile(1, "f", Printable, None, None);
    RunTwo(InitialService(clock), open, add);
  }

  lemma RunTwo(s: Service, a: Op, b: Op)
    ensures Run(s, [a, b]) == Step(Step(s, a).0, b).0
  {
    hide Step;
    assert [a, b][1..] == [b] && [b][1..] == [];
    assert Run(Step(s, a).0, [b]) == Run(Step(Step(s, a).0, b).0, []);
  }
}
