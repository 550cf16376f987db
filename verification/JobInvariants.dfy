/** What every reachable job table satisfies. */
module JobInvariants {
  import opened Prelude
  import opened PrintableArea
  import opened CupsOptions
  import opened CupsSubmit
  import SubmitProtocol
  import opened EditParams
  import opened SpoolPaths
  import opened JobModel

  // -------------------------------------------------------------- the job table

  ghost predicate JobOk(job: Job) {
    && ValidParams(job.params)
    && 0 <= job.currentPage <= |job.files|
    && (job.phase.Open? ==> job.lastPrinterState.None? && job.cupsJobId == -1 && job.startedAt == 0)
    && (job.phase.Submitted? ==>
          job.cupsJobId > 0 && job.files != [] && job.lastPrinterState.Some? && job.lastPrinterState.value != "DONE")
  }

  /** Keys are job ids below the next one, every id has a stream, and the timer runs while a job is submitted. */
  ghost predicate TableInv(s: Service) {
    && s.nextId >= 1
    && (forall id :: id in s.table ==> 1 <= id < s.nextId && s.table[id].jobId == id)
    && (forall id :: id in s.streams <==> 1 <= id < s.nextId)
    && (forall id :: id in s.table ==> JobOk(s.table[id]))
    && (AnySubmitted(s.table) ==> s.polling)
  }

  lemma InitialTableInv(clock: nat)
    ensures TableInv(InitialService(clock))
  {}

  /** A job CUPS accepted has a positive id there. */
  lemma SubmittedIdPositive(printer: string, title: string, files: seq<string>, p: JobParams, w: World)
    ensures var r := SubmitCalls(printer, Some(title), files, p, w).1; r.Submitted? ==> r.cupsId > 0 && files != []
  {
    SubmitProtocol.SubmissionFollowsProtocol(printer, Some(title), files, p, w);
  }

  lemma SubmitTableInv(s: Service, id: int, maxResolution: Option<int>, w: World)
    requires TableInv(s) && id in s.table && s.table[id].phase.Open?
    ensures TableInv(SubmitJob(s, id, maxResolution, w).0) && id in SubmitJob(s, id, maxResolution, w).0.table
    ensures SubmitJob(s, id, maxResolution, w).1.Some? ==> SubmitJob(s, id, maxResolution, w).0.table == s.table
  {
    hide ValidParams, SubmitCalls, BuildParams;
    var job := s.table[id];
    SubmittedIdPositive(job.printerId, job.description, job.files, BuildParams(job.params, Or(maxResolution, 0)), w);
  }

  lemma FinishTableInv(s: Service, id: int, phase: Phase, status: string)
    requires TableInv(s) && id in s.table && (phase.Done? || phase.Cancelled?)
    ensures TableInv(Finish(s, id, phase, status))
  {
    hide ValidParams;
  }

  lemma OpenedTableInv(s: Service, printer: string, description: string, appName: string, dirMade: bool)
    requires TableInv(s)
    ensures TableInv(Opened(s, printer, description, appName, dirMade))
  {
    hide ValidParams;
    InitialParamsValid();
  }

  lemma FilledTableInv(s: Service, printer: string, description: string, appName: string, dirMade: bool,
                       autoScale: Option<bool>, items: seq<Item>)
    requires TableInv(s) && FirstItemError(items).None?
    ensures TableInv(Filled(s, printer, description, appName, dirMade, autoScale, items))
    ensures s.nextId in Filled(s, printer, description, appName, dirMade, autoScale, items).table
  {
    hide ValidParams, FirstItemError, PathsOf, InitialParams;
    OpenedTableInv(s, printer, description, appName, dirMade);
    InitialParamsValid();
    ScalingKeepsValid(InitialParams(), Or(autoScale, InitialParams().autoScale));
  }

  lemma ScalingKeepsValid(p: PrintParams, scale: bool)
    requires ValidParams(p)
    ensures ValidParams(p.(autoScale := scale))
  {}

  lemma AllAtOnceTableInv(s: Service, op: Op)
    requires TableInv(s) && op.AllAtOnce?
    ensures TableInv(Step(s, op).0)
  {
    hide ValidParams, SubmitJob, Opened, Filled, FirstItemError, PathsOf, StateEvent, JobOk, Freed;
    OpenedTableInv(s, op.printer, op.description, op.appName, op.dirMade);
    if FirstItemError(op.items).None? {
      FilledTableInv(s, op.printer, op.description, op.appName, op.dirMade, op.autoScale, op.items);
      var s1 := Filled(s, op.printer, op.description, op.appName, op.dirMade, op.autoScale, op.items);
      FilledIsOpen(s, op.printer, op.description, op.appName, op.dirMade, op.autoScale, op.items);
      SubmitTableInv(s1, s.nextId, op.maxResolution, op.world);
    } else {
      OpenedIds(s, op.printer, op.description, op.appName, op.dirMade);
    }
  }

  lemma OpenedIds(s: Service, printer: string, description: string, appName: string, dirMade: bool)
    ensures Opened(s, printer, description, appName, dirMade).nextId == s.nextId + 1
  {}

  lemma FilledIsOpen(s: Service, printer: string, description: string, appName: string, dirMade: bool,
                     autoScale: Option<bool>, items: seq<Item>)
    requires FirstItemError(items).None?
    ensures var s1 := Filled(s, printer, description, appName, dirMade, autoScale, items);
            s.nextId in s1.table && s1.table[s.nextId].phase.Open? && s1.nextId == s.nextId + 1
  {}

  lemma PollTableInv(s: Service, answers: int -> Option<CupsJobState>)
    requires TableInv(s)
    ensures TableInv(StepPoll(s, answers))
  {
    hide ValidParams, StateEvent;
    var s' := StepPoll(s, answers);
    forall id | id in s'.table
      ensures JobOk(s'.table[id]) && (s'.table[id].phase.Submitted? ==> s.table[id].phase.Submitted?)
    {
    }
  }

  lemma EditTableInv(s: Service, id: int, edits: Edits)
    requires TableInv(s)
    ensures TableInv(StepEdit(s, id, edits).0)
  {
    hide ValidParams, Edited;
    if id in s.table { EditKeepsValid(s.table[id].params, edits); }
  }

  lemma CloseTableInv(s: Service, id: int, maxResolution: Option<int>, w: World)
    requires TableInv(s)
    ensures TableInv(StepClose(s, id, maxResolution, w).0)
  {
    hide JobOk, SubmitJob, Finish;
    if id in s.table && s.table[id].phase.Open? {
      SubmitTableInv(s, id, maxResolution, w);
      FinishTableInv(s, id, Done, "Success");
      FinishTableInv(SubmitJob(s, id, maxResolution, w).0, id, Done, "Error");
    }
  }

  lemma CancelTableInv(s: Service, id: int, cupsCancels: bool)
    requires TableInv(s)
    ensures TableInv(StepCancel(s, id, cupsCancels).0)
  {
    hide JobOk, Finish;
    if id in s.table {
      var job := s.table[id];
      FinishTableInv(s, id, Cancelled, "Cancelled");
      FinishTableInv(s.(cups := s.cups + [CancelJob(job.printerId, job.cupsJobId)]), id, Cancelled, "Cancelled");
    }
  }

  lemma AddFileTableInv(s: Service, id: int, path: string, check: FileCheck, page: Option<int>, total: Option<int>)
    requires TableInv(s)
    ensures TableInv(StepAddFile(s, id, path, check, page, total).0)
  {
    hide ValidParams;
  }

  lemma NewTempFileTableInv(s: Service, id: int, ext: string, size: int, created: bool, reserved: bool)
    requires TableInv(s)
    ensures TableInv(StepNewTempFile(s, id, ext, size, created, reserved).0)
  {
    hide ValidParams, TempPath;
  }

  lemma TableStep(s: Service, op: Op)
    requires TableInv(s)
    ensures TableInv(Step(s, op).0)
  {
    hide JobOk, Opened, StepEdit, StepClose, StepCancel, StepAddFile, StepNewTempFile, StepAllAtOnce, StepPoll;
    match op
    case Advance(_) =>
    case OpenJob(printer, description, appName, dirMade) => OpenedTableInv(s, printer, description, appName, dirMade);
    case Edit(id, edits) => EditTableInv(s, id, edits);
    case NewTempFile(id, ext, size, created, reserved) => NewTempFileTableInv(s, id, ext, size, created, reserved);
    case AddFile(id, path, check, page, total) => AddFileTableInv(s, id, path, check, page, total);
    case Close(id, maxResolution, w) => CloseTableInv(s, id, maxResolution, w);
    case Cancel(id, cupsCancels) => CancelTableInv(s, id, cupsCancels);
    case AllAtOnce(_, _, _, _, _, _, _, _) => AllAtOnceTableInv(s, op);
    case Poll(answers) => PollTableInv(s, answers);
    case QueryCapabilities(_) =>
  }

  /**
   * The timer from step to step: a tick leaves it armed exactly if it found a submitted job, any other operation
   * exactly if it was armed or there is a submitted job now.
   */
  lemma TimerStep(s: Service, op: Op)
    requires TableInv(s)
    ensures Step(s, op).0.polling
       <==> if op.Poll? then AnySubmitted(s.table) else s.polling || AnySubmitted(Step(s, op).0.table)
  {
    TableStep(s, op);
    if op.Poll? {
      hide JobOk, PollJob;
    } else {
      TimerMoves(s, op);
      hide Step, JobOk, AnySubmitted;
    }
  }

  /** Nothing but a tick disarms the timer, and only a submission arms it. */
  ghost predicate Arms(s: Service, s': Service) {
    (s.polling ==> s'.polling) && (s'.polling ==> s.polling || AnySubmitted(s'.table))
  }

  lemma TimerMoves(s: Service, op: Op)
    requires !op.Poll?
    ensures Arms(s, Step(s, op).0)
  {
    hide AnySubmitted, StepClose, StateEvent, Edited, TempPath, SubmitFilled, FirstItemError;
    match op
    case Close(id, maxResolution, w) => CloseArms(s, id, maxResolution, w);
    case AllAtOnce(_, _, _, _, _, _, maxResolution, w) =>
      if op.items != [] && FirstItemError(op.items).None? {
        var s1 := Filled(s, op.printer, op.description, op.appName, op.dirMade, op.autoScale, op.items);
        FilledArms(s1, s.nextId, maxResolution, w);
      }
    case _ =>
  }

  lemma SubmitArms(s: Service, id: int, maxResolution: Option<int>, w: World)
    requires id in s.table
    ensures var (s', err) := SubmitJob(s, id, maxResolution, w); Arms(s, s') && (err.Some? ==> s'.polling == s.polling)
  {
    hide SubmissionOf, StateEvent;
    var (s', err) := SubmitJob(s, id, maxResolution, w);
    if err.None? { assert s'.table[id].phase == Phase.Submitted; }
  }

  lemma CloseArms(s: Service, id: int, maxResolution: Option<int>, w: World)
    ensures Arms(s, StepClose(s, id, maxResolution, w).0)
  {
    hide AnySubmitted, SubmitJob, StateEvent;
    if id in s.table && s.table[id].phase.Open? {
      SubmitArms(s, id, maxResolution, w);
      SubmitKeepsJob(s, id, maxResolution, w);
      var (s1, err) := SubmitJob(s, id, maxResolution, w);
      if s.table[id].files != [] && err.Some? {
        assert StepClose(s, id, maxResolution, w).0 == Finish(s1, id, Done, "Error");
      }
    }
  }

  lemma FilledArms(s: Service, id: int, maxResolution: Option<int>, w: World)
    requires id in s.table
    ensures Arms(s, SubmitFilled(s, id, maxResolution, w).0)
  {
    hide AnySubmitted, SubmitJob, StateEvent;
    SubmitArms(s, id, maxResolution, w);
    var (s1, err) := SubmitJob(s, id, maxResolution, w);
    assert err.None? ==> SubmitFilled(s, id, maxResolution, w).0 == s1;
    assert err.Some? ==> SubmitFilled(s, id, maxResolution, w).0.polling == s1.polling;
  }

  /** The invariant of the job table holds in every state a run can reach. */
  lemma {:induction false} TableRun(s: Service, ops: seq<Op>)
    requires TableInv(s)
    ensures TableInv(Run(s, ops))
    decreases |ops|
  {
    if ops != [] {
      hide Step, TableInv;
      TableStep(s, ops[0]);
      TableRun(Step(s, ops[0]).0, ops[1..]);
    }
  }
}
