/** What holds between two moments of a run: nothing is reused, rewound or changed after it left OPEN. */
module JobHistory {
  import opened Prelude
  import opened CupsOptions
  import opened CupsSubmit
  import opened EditParams
  import opened SpoolPaths
  import opened JobModel
  import opened JobSteps
  import opened JobInvariants

  // ---------------------------------------------------- submissions on record

  /** The job still is what its submission was built from. */
  ghost predicate Matches(job: Job, sub: Submission) {
    && sub.printer == job.printerId && sub.title == job.description && sub.files == job.files
    && sub.params == BuildParams(job.params, sub.maxResolution)
    && (job.cupsJobId > 0 ==> sub.Result() == SubmitResult.Submitted(job.cupsJobId))
  }

  ghost predicate SubmissionInv(s: Service) {
    && (forall id :: id in s.submissions ==> 1 <= id < s.nextId)
    && (forall id :: id in s.submissions && id in s.table ==>
          !s.table[id].phase.Open? && Matches(s.table[id], s.submissions[id]))
    && (forall id :: id in s.table && s.table[id].cupsJobId > 0 ==> id in s.submissions)
  }

  /** All of it but for job id, which has just been refused. */
  ghost predicate SubmissionInvBut(s: Service, id: int) {
    && (forall k :: k in s.submissions ==> 1 <= k < s.nextId)
    && (forall k :: k in s.submissions && k in s.table && k != id ==>
          !s.table[k].phase.Open? && Matches(s.table[k], s.submissions[k]))
    && (forall k :: k in s.table && s.table[k].cupsJobId > 0 ==> k in s.submissions)
    && (id in s.table && id in s.submissions ==>
          s.table[id].cupsJobId == -1 && Matches(s.table[id], s.submissions[id]))
  }

  lemma SubmitSubmissionInv(s: Service, id: int, maxResolution: Option<int>, w: World)
    requires TableInv(s) && id in s.table && s.table[id].phase.Open?
    requires SubmissionInv(s)
    ensures var (s', err) := SubmitJob(s, id, maxResolution, w);
            && (err.None? ==> SubmissionInv(s'))
            && (err.Some? ==> SubmissionInvBut(s', id) && s'.table == s.table)
  {
    hide BuildParams, SubmitCalls, ValidParams, StateEvent;
  }

  lemma RefusedSubmissionInv(s: Service, s': Service, id: int)
    requires SubmissionInvBut(s, id) && id in s.table && s'.nextId == s.nextId && s'.submissions == s.submissions
    requires s'.table == s.table - {id} || s'.table == s.table[id := s.table[id].(phase := Done)]
    ensures SubmissionInv(s')
  {
    hide BuildParams;
  }

  lemma CloseSubmissionInv(s: Service, id: int, maxResolution: Option<int>, w: World)
    requires TableInv(s) && SubmissionInv(s)
    ensures SubmissionInv(StepClose(s, id, maxResolution, w).0)
  {
    if id in s.table && s.table[id].phase.Open? {
      hide JobOk, SubmitJob, Matches;
      if s.table[id].files == [] {
        FinishSubmissionInv(s, id, Done, "Success");
      } else {
        SubmitSubmissionInv(s, id, maxResolution, w);
        var (s1, err) := SubmitJob(s, id, maxResolution, w);
        if err.Some? {
          RefusedSubmissionInv(s1, Finish(s1, id, Done, "Error"), id);
        }
      }
    }
  }

  lemma FinishSubmissionInv(s: Service, id: int, phase: Phase, status: string)
    requires TableInv(s) && SubmissionInv(s) && id in s.table && (phase.Done? || phase.Cancelled?)
    ensures SubmissionInv(Finish(s, id, phase, status))
  {
    hide JobOk, BuildParams;
  }

  lemma CancelSubmissionInv(s: Service, id: int, cupsCancels: bool)
    requires TableInv(s) && SubmissionInv(s)
    ensures SubmissionInv(StepCancel(s, id, cupsCancels).0)
  {
    hide JobOk, Finish, Matches;
    if id in s.table {
      var job := s.table[id];
      FinishSubmissionInv(s, id, Cancelled, "Cancelled");
      FinishSubmissionInv(s.(cups := s.cups + [CancelJob(job.printerId, job.cupsJobId)]), id, Cancelled, "Cancelled");
    }
  }

  lemma JoinedSubmissionInv(s: Service, s1: Service)
    requires TableInv(s) && SubmissionInv(s) && Joined(s, s1)
    ensures SubmissionInv(s1)
  {
    hide JobOk, Matches, TempDir;
  }

  lemma RemovedSubmissionInv(s: Service, id: int)
    requires SubmissionInv(s)
    ensures SubmissionInv(Remove(s, id))
  {
    hide Matches, Freed;
  }

  lemma SubmitFilledSubmissionInv(s: Service, id: int, maxResolution: Option<int>, w: World)
    requires TableInv(s) && SubmissionInv(s) && id in s.table && s.table[id].phase.Open?
    ensures SubmissionInv(SubmitFilled(s, id, maxResolution, w).0)
  {
    var s1, err, cupsId, e := SubmitFilledCases(s, id, maxResolution, w);
    hide SubmitFilled, SubmitJob, JobOk, Matches, SubmissionInv, SubmissionInvBut, Freed, Queued;
    SubmitSubmissionInv(s, id, maxResolution, w);
    if err.Some? {
      RefusedSubmissionInv(s1, SubmitFilled(s, id, maxResolution, w).0, id);
    }
  }

  lemma AllAtOnceSubmissionInv(s: Service, op: Op)
    requires TableInv(s) && SubmissionInv(s) && op.AllAtOnce?
    ensures SubmissionInv(Step(s, op).0)
  {
    var s1 := AllAtOnceCases(s, op);
    if FirstItemError(op.items).None? { JoinedTableInv(s, op); }
    hide Step, Filled, Opened, Remove, SubmitFilled, FirstItemError, JobOk, SubmissionInv, TableInv;
    if op.items != [] {
      JoinedSubmissionInv(s, s1);
      if FirstItemError(op.items).None? {
        SubmitFilledSubmissionInv(s1, s.nextId, op.maxResolution, op.world);
      } else {
        RemovedSubmissionInv(s1, s.nextId);
      }
    }
  }

  lemma JoinedTableInv(s: Service, op: Op)
    requires TableInv(s) && op.AllAtOnce? && FirstItemError(op.items).None?
    ensures TableInv(Filled(s, op.printer, op.description, op.appName, op.dirMade, op.autoScale, op.items))
  {
    hide TableInv, FirstItemError, Filled;
    FilledTableInv(s, op.printer, op.description, op.appName, op.dirMade, op.autoScale, op.items);
  }

  lemma PollSubmissionInv(s: Service, answers: int -> Option<CupsJobState>)
    requires TableInv(s) && SubmissionInv(s)
    ensures SubmissionInv(StepPoll(s, answers))
  {
    hide JobOk, BuildParams, StateEvent;
  }

  lemma EditSubmissionInv(s: Service, id: int, edits: Edits)
    requires TableInv(s) && SubmissionInv(s)
    ensures SubmissionInv(StepEdit(s, id, edits).0)
  {
    hide JobOk, BuildParams, Edited;
  }

  lemma NewTempFileSubmissionInv(s: Service, id: int, ext: string, size: int, created: bool, reserved: bool)
    requires TableInv(s) && SubmissionInv(s)
    ensures SubmissionInv(StepNewTempFile(s, id, ext, size, created, reserved).0)
  {
    hide JobOk, BuildParams, TempPath;
  }

  lemma AddFileSubmissionInv(s: Service, id: int, path: string, check: FileCheck, page: Option<int>, total: Option<int>)
    requires TableInv(s) && SubmissionInv(s)
    ensures SubmissionInv(StepAddFile(s, id, path, check, page, total).0)
  {
    hide ValidParams, BuildParams;
  }

  lemma SubmissionStep(s: Service, op: Op)
    requires TableInv(s) && SubmissionInv(s)
    ensures SubmissionInv(Step(s, op).0)
  {
    hide JobOk, Matches, StepEdit, StepClose, StepCancel, StepAddFile, StepNewTempFile, StepAllAtOnce, StepPoll;
    match op
    case Advance(_) =>
    case OpenJob(_, _, _, _) =>
    case Edit(id, edits) => EditSubmissionInv(s, id, edits);
    case NewTempFile(id, ext, size, created, reserved) => NewTempFileSubmissionInv(s, id, ext, size, created, reserved);
    case AddFile(id, path, check, page, total) => AddFileSubmissionInv(s, id, path, check, page, total);
    case Close(id, maxResolution, w) => CloseSubmissionInv(s, id, maxResolution, w);
    case Cancel(id, cupsCancels) => CancelSubmissionInv(s, id, cupsCancels);
    case AllAtOnce(_, _, _, _, _, _, _, _) => AllAtOnceSubmissionInv(s, op);
    case Poll(answers) => PollSubmissionInv(s, answers);
    case QueryCapabilities(_) =>
  }

  // --------------------------------------------------------- between two moments

  function Rank(p: Phase): nat {
    match p case Open => 0 case Submitted => 1 case Done => 2 case Cancelled => 3
  }

  /** What one job may turn into. */
  ghost predicate JobLater(a: Job, b: Job) {
    && a.jobId == b.jobId && a.printerId == b.printerId && a.description == b.description && a.appName == b.appName
    && a.tempDir == b.tempDir && a.queuedAt == b.queuedAt && IsPrefix(a.tempFiles, b.tempFiles)
    && Rank(a.phase) <= Rank(b.phase)
    && IsPrefix(a.files, b.files)
    && (!a.phase.Open? ==> b.files == a.files && b.params == a.params && b.cupsJobId == a.cupsJobId)
  }

  /**
   * What a service may turn into: ids grow and are never reused, jobs stay in the table, streams and scratch
   * files only grow, and a submission on record stays as it is.
   */
  ghost predicate Later(s: Service, s': Service) {
    && s.nextId <= s'.nextId
    && (forall id :: id in s.table ==> id in s'.table && JobLater(s.table[id], s'.table[id]))
    && (forall id :: id in s'.table && id !in s.table ==> id >= s.nextId)
    && (forall id :: id in s.streams ==> id in s'.streams && IsPrefix(s.streams[id], s'.streams[id]))
    && (forall id :: id in s.submissions ==> id in s'.submissions && s'.submissions[id] == s.submissions[id])
  }

  lemma JobLaterItself(a: Job)
    ensures JobLater(a, a)
  {}

  lemma JobLaterTransitive(a: Job, b: Job, c: Job)
    requires JobLater(a, b) && JobLater(b, c)
    ensures JobLater(a, c)
  {}

  lemma LaterTransitive(a: Service, b: Service, c: Service)
    requires Later(a, b) && Later(b, c)
    ensures Later(a, c)
  {
    hide JobLater;
    forall id | id in a.table
      ensures id in c.table && JobLater(a.table[id], c.table[id])
    {
      JobLaterTransitive(a.table[id], b.table[id], c.table[id]);
    }
  }

  lemma SubmitLater(s: Service, id: int, maxResolution: Option<int>, w: World)
    requires TableInv(s) && SubmissionInv(s) && id in s.table && s.table[id].phase.Open?
    ensures Later(s, SubmitJob(s, id, maxResolution, w).0)
  {
    hide JobOk, Matches, BuildParams, SubmitCalls, StateEvent;
  }

  /** Moving one job on, and posting at most one event about it. */
  lemma UpdateLater(s: Service, s': Service, id: int)
    requires id in s.table && id in s'.table && JobLater(s.table[id], s'.table[id])
    requires s'.table == s.table[id := s'.table[id]] && s'.nextId == s.nextId && s'.submissions == s.submissions
    requires s'.streams == s.streams || exists e :: s'.streams == Post(s.streams, id, e)
    ensures Later(s, s')
  {
    forall k | k in s.table ensures JobLater(s.table[k], s'.table[k]) {}
  }

  lemma FinishLater(s: Service, id: int, phase: Phase, status: string)
    requires id in s.table && Rank(s.table[id].phase) <= Rank(phase)
    ensures Later(s, Finish(s, id, phase, status))
  {
    hide StateEvent, Later;
    UpdateLater(s, Finish(s, id, phase, status), id);
  }

  lemma CloseLater(s: Service, id: int, maxResolution: Option<int>, w: World)
    requires TableInv(s) && SubmissionInv(s)
    ensures Later(s, StepClose(s, id, maxResolution, w).0)
  {
    hide JobOk, SubmissionInv, Later, SubmitJob, Finish, JobLater;
    if id in s.table && s.table[id].phase.Open? {
      var (s1, err) := SubmitJob(s, id, maxResolution, w);
      if s.table[id].files == [] {
        FinishLater(s, id, Done, "Success");
      } else {
        SubmitLater(s, id, maxResolution, w);
        if err.Some? {
          SubmitTableInv(s, id, maxResolution, w);
          FinishLater(s1, id, Done, "Error");
          LaterTransitive(s, s1, Finish(s1, id, Done, "Error"));
        }
      }
    } else {
      LaterItself(s);
    }
  }

  lemma LaterItself(s: Service)
    ensures Later(s, s)
  {}

  lemma CancelLater(s: Service, id: int, cupsCancels: bool)
    ensures Later(s, StepCancel(s, id, cupsCancels).0)
  {
    hide StateEvent, Later;
    if id in s.table && StepCancel(s, id, cupsCancels).1.Success? {
      UpdateLater(s, StepCancel(s, id, cupsCancels).0, id);
    } else {
      CallsLater(s, StepCancel(s, id, cupsCancels).0.cups);
    }
  }

  lemma CallsLater(s: Service, cups: seq<Call>)
    ensures Later(s, s.(cups := cups))
  {}

  /** Job k and its stream are the same in both. */
  ghost predicate Same(s: Service, s': Service, k: int) {
    && k in s.table && k in s'.table && s'.table[k] == s.table[k]
    && StreamOf(s'.streams, k) == StreamOf(s.streams, k)
  }

  /** So are job k, if there is one, and its stream. */
  ghost predicate Elsewhere(s: Service, s': Service, k: int) {
    && (k in s'.table <==> k in s.table) && (k in s.table ==> Same(s, s', k))
    && StreamOf(s'.streams, k) == StreamOf(s.streams, k)
  }

  lemma SubmitElsewhere(s: Service, id: int, maxResolution: Option<int>, w: World, k: int)
    requires id in s.table && k != id
    ensures Elsewhere(s, SubmitJob(s, id, maxResolution, w).0, k)
  {
    var s1, err, cupsId := SubmitCases(s, id, maxResolution, w);
    hide SubmitJob, Queued, Recorded, Elsewhere;
    SameElsewhere(s, s1, k);
    if err.None? {
      QueuedElsewhere(s1, id, cupsId, k);
      ElsewhereTwice(s, s1, Queued(s1, id, cupsId), k);
    }
  }

  lemma SameElsewhere(s: Service, s': Service, k: int)
    requires s'.table == s.table && s'.streams == s.streams
    ensures Elsewhere(s, s', k)
  {}

  lemma QueuedElsewhere(s: Service, id: int, cupsId: int, k: int)
    requires id in s.table && k != id
    ensures Elsewhere(s, Queued(s, id, cupsId), k)
  {
    var job, e := QueuedParts(s, id, cupsId);
    hide Queued;
  }

  lemma SubmitFilledElsewhere(s: Service, id: int, maxResolution: Option<int>, w: World, k: int)
    requires id in s.table && k != id
    ensures Elsewhere(s, SubmitFilled(s, id, maxResolution, w).0, k)
  {
    var s1, err, cupsId, e := SubmitFilledCases(s, id, maxResolution, w);
    SubmitElsewhere(s, id, maxResolution, w, k);
    hide SubmitFilled, SubmitJob, Freed, Queued;
  }

  /** allAtOnce leaves every other job alone, and every other stream, those of removed jobs included. */
  lemma AllAtOnceElsewhere(s: Service, op: Op, k: int)
    requires op.AllAtOnce? && k != s.nextId
    ensures Elsewhere(s, Step(s, op).0, k)
  {
    var s1 := AllAtOnceCases(s, op);
    hide Step, Filled, Opened, SubmitFilled, FirstItemError, Joined, Remove, Elsewhere;
    if op.items == [] {
      SameElsewhere(s, s, k);
    } else {
      JoinedElsewhere(s, s1, k);
      if FirstItemError(op.items).None? {
        SubmitFilledElsewhere(s1, s.nextId, op.maxResolution, op.world, k);
      } else {
        RemovedElsewhere(s1, s.nextId, k);
      }
      ElsewhereTwice(s, s1, Step(s, op).0, k);
    }
  }

  lemma JoinedElsewhere(s: Service, s1: Service, k: int)
    requires Joined(s, s1) && k != s.nextId
    ensures Elsewhere(s, s1, k)
  {
    hide IsNew;
  }

  lemma RemovedElsewhere(s: Service, id: int, k: int)
    requires k != id
    ensures Elsewhere(s, Remove(s, id), k)
  {
    hide Freed;
  }

  lemma ElsewhereTwice(a: Service, b: Service, c: Service, k: int)
    requires Elsewhere(a, b, k) && Elsewhere(b, c, k)
    ensures Elsewhere(a, c, k)
  {}

  lemma AllAtOnceLater(s: Service, op: Op)
    requires TableInv(s) && SubmissionInv(s) && op.AllAtOnce?
    ensures Later(s, Step(s, op).0)
  {
    var s' := Step(s, op).0;
    AllAtOnceRest(s, op);
    hide JobOk, Step, Matches, JobLater;
    forall id | id in s.table || id in s.streams
      ensures id in s.table ==> id in s'.table && JobLater(s.table[id], s'.table[id])
      ensures StreamOf(s'.streams, id) == StreamOf(s.streams, id)
    {
      AllAtOnceElsewhere(s, op, id);
      if id in s.table { JobLaterItself(s.table[id]); }
    }
    hide Same, Elsewhere;
    forall id | id in s.streams
      ensures id in s'.streams && IsPrefix(s.streams[id], s'.streams[id])
    {
      assert StreamOf(s'.streams, id) == StreamOf(s.streams, id);
    }
  }

  lemma AllAtOnceRest(s: Service, op: Op)
    requires TableInv(s) && SubmissionInv(s) && op.AllAtOnce?
    ensures var s' := Step(s, op).0;
            && s.nextId <= s'.nextId && s'.table.Keys <= s.table.Keys + {s.nextId} && s.streams.Keys <= s'.streams.Keys
            && (forall id :: id in s.submissions ==> id in s'.submissions && s'.submissions[id] == s.submissions[id])
  {
    var s1 := AllAtOnceCases(s, op);
    hide Step, Filled, Opened, SubmitFilled, FirstItemError, IsNew, Freed, JobOk, Matches;
    if op.items != [] && FirstItemError(op.items).None? {
      SubmitFilledRest(s1, s.nextId, op.maxResolution, op.world);
    }
  }

  lemma SubmitFilledRest(s: Service, id: int, maxResolution: Option<int>, w: World)
    requires id in s.table
    ensures var s' := SubmitFilled(s, id, maxResolution, w).0;
            && s'.nextId == s.nextId && s'.table.Keys <= s.table.Keys && s.streams.Keys <= s'.streams.Keys
            && (forall k :: k in s.submissions && k != id ==> k in s'.submissions && s'.submissions[k] == s.submissions[k])
  {
    var s1, err, cupsId, e := SubmitFilledCases(s, id, maxResolution, w);
    hide SubmitFilled, SubmitJob, Queued, Freed;
    if err.None? {
      var job, f := QueuedParts(s1, id, cupsId);
    }
  }

  lemma PollLater(s: Service, answers: int -> Option<CupsJobState>)
    requires TableInv(s)
    ensures Later(s, StepPoll(s, answers))
  {
    hide JobOk, StateEvent;
  }

  lemma NewTempFileLater(s: Service, id: int, ext: string, size: int, created: bool, reserved: bool)
    ensures Later(s, StepNewTempFile(s, id, ext, size, created, reserved).0)
  {
    hide TempPath;
  }

  lemma AddFileLater(s: Service, id: int, path: string, check: FileCheck, page: Option<int>, total: Option<int>)
    ensures Later(s, StepAddFile(s, id, path, check, page, total).0)
  {
    hide Later;
    if StepAddFile(s, id, path, check, page, total).1.Success? {
      UpdateLater(s, StepAddFile(s, id, path, check, page, total).0, id);
    } else {
      LaterItself(s);
    }
  }

  lemma EditLater(s: Service, id: int, edits: Edits)
    ensures Later(s, StepEdit(s, id, edits).0)
  {
    hide Edited;
  }

  lemma OpenedLater(s: Service, printer: string, description: string, appName: string, dirMade: bool)
    requires TableInv(s)
    ensures Later(s, Opened(s, printer, description, appName, dirMade))
  {
    hide JobOk, FreshJob;
  }

  lemma StepLater(s: Service, op: Op)
    requires TableInv(s) && SubmissionInv(s)
    ensures Later(s, Step(s, op).0)
  {
    hide TableInv, SubmissionInv, JobLater, Opened,
      StepEdit, StepClose, StepCancel, StepAddFile, StepNewTempFile, StepAllAtOnce, StepPoll;
    match op
    case Advance(elapsed) => AdvanceLater(s, elapsed);
    case OpenJob(printer, description, appName, dirMade) => OpenedLater(s, printer, description, appName, dirMade);
    case Edit(id, edits) => EditLater(s, id, edits);
    case NewTempFile(id, ext, size, created, reserved) => NewTempFileLater(s, id, ext, size, created, reserved);
    case AddFile(id, path, check, page, total) => AddFileLater(s, id, path, check, page, total);
    case Close(id, maxResolution, w) => CloseLater(s, id, maxResolution, w);
    case Cancel(id, cupsCancels) => CancelLater(s, id, cupsCancels);
    case AllAtOnce(_, _, _, _, _, _, _, _) => AllAtOnceLater(s, op);
    case Poll(answers) => PollLater(s, answers);
    case QueryCapabilities(printer) => CallsLater(s, s.cups + [QueryCaps(printer)]);
  }

  lemma AdvanceLater(s: Service, elapsed: nat)
    ensures Later(s, s.(clock := s.clock + elapsed))
  {}

  /** Any number of steps. */
  lemma {:induction false} RunLater(s: Service, ops: seq<Op>)
    requires TableInv(s) && SubmissionInv(s)
    ensures Later(s, Run(s, ops)) && SubmissionInv(Run(s, ops))
    decreases |ops|
  {
    if ops == [] {
      LaterItself(s);
    } else {
      hide Step, TableInv, SubmissionInv, Later;
      var s1 := Step(s, ops[0]).0;
      TableStep(s, ops[0]);
      SubmissionStep(s, ops[0]);
      StepLater(s, ops[0]);
      RunLater(s1, ops[1..]);
      LaterTransitive(s, s1, Run(s1, ops[1..]));
    }
  }

  lemma {:induction false} RunConcat(s: Service, a: seq<Op>, b: seq<Op>)
    ensures Run(s, a + b) == Run(Run(s, a), b)
    decreases |a|
  {
    if a == [] {
      assert a + b == b;
    } else {
      hide Step;
      assert (a + b)[1..] == a[1..] + b;
      RunConcat(Step(s, a[0]).0, a[1..], b);
    }
  }

  /**
   * Once a job has left OPEN its files and parameters are those its submission was built from, at every later
   * moment of every run, and the submission on record never changes.
   */
  lemma FrozenAfterOpen(clock: nat, before: seq<Op>, after: seq<Op>, id: int)
    requires id in Run(InitialService(clock), before).table
    requires !Run(InitialService(clock), before).table[id].phase.Open?
    ensures var s, s' := Run(InitialService(clock), before), Run(InitialService(clock), before + after);
            && id in s'.table && Rank(s.table[id].phase) <= Rank(s'.table[id].phase)
            && s'.table[id].files == s.table[id].files && s'.table[id].params == s.table[id].params
            && (id in s.submissions ==>
                  id in s'.submissions && s'.submissions[id] == s.submissions[id]
                  && Matches(s'.table[id], s.submissions[id]))
  {
    var s0 := InitialService(clock);
    InitialTableInv(clock);
    assert SubmissionInv(s0);
    hide Run, TableInv, Matches;
    var s := Run(s0, before);
    TableRun(s0, before);
    RunLater(s0, before);
    RunLater(s, after);
    RunConcat(s0, before, after);
  }

  // -------------------------------------------------------- after the first DONE

  /** The same up to the scratch files. */
  ghost predicate Rests(s: Service, s': Service, id: int) {
    && id in s.table && id in s'.table
    && s'.table[id].(tempFiles := s.table[id].tempFiles) == s.table[id]
    && StreamOf(s'.streams, id) == StreamOf(s.streams, id)
  }

  /** A job that left OPEN is only touched by newTempFile, cancel and, while submitted, the poll; newTempFile never posts. */
  lemma ClosedJobsRest(s: Service, op: Op, id: int)
    requires TableInv(s) && id in s.table && !s.table[id].phase.Open?
    requires !(op.Cancel? && op.jobId == id) && (op.Poll? ==> !s.table[id].phase.Submitted?)
    ensures Rests(s, Step(s, op).0, id)
  {
    hide JobOk, StepAllAtOnce, StepNewTempFile, StepPoll, StepAddFile, StepEdit, StepClose, StepCancel, Opened, Rests;
    match op
    case AllAtOnce(_, _, _, _, _, _, _, _) =>
      AllAtOnceElsewhere(s, op, id);
      ElsewhereRests(s, Step(s, op).0, id);
    case Poll(answers) => ClosedAtPoll(s, answers, id);
    case Close(k, maxResolution, w) => CloseRests(s, k, maxResolution, w, id);
    case Cancel(k, cupsCancels) => CancelRests(s, k, cupsCancels, id);
    case Edit(k, edits) => EditRests(s, k, edits, id);
    case NewTempFile(k, ext, size, created, reserved) => NewTempFileRests(s, k, ext, size, created, reserved, id);
    case AddFile(k, path, check, page, total) => AddFileRests(s, k, path, check, page, total, id);
    case OpenJob(printer, description, appName, dirMade) =>
      OpenedJoins(s, printer, description, appName, dirMade);
      JoinedElsewhere(s, Opened(s, printer, description, appName, dirMade), id);
      ElsewhereRests(s, Step(s, op).0, id);
    case Advance(elapsed) => AdvanceRests(s, s.(clock := s.clock + elapsed), id);
    case QueryCapabilities(printer) => AdvanceRests(s, s.(cups := s.cups + [QueryCaps(printer)]), id);
  }

  lemma ElsewhereRests(s: Service, s': Service, id: int)
    requires id in s.table && Elsewhere(s, s', id)
    ensures Rests(s, s', id)
  {}

  lemma AdvanceRests(s: Service, s': Service, id: int)
    requires id in s.table && s'.table == s.table && s'.streams == s.streams
    ensures Rests(s, s', id)
  {}

  lemma CloseRests(s: Service, k: int, maxResolution: Option<int>, w: World, id: int)
    requires id in s.table && !s.table[id].phase.Open?
    ensures Rests(s, StepClose(s, k, maxResolution, w).0, id)
  {
    hide SubmitJob, StateEvent;
    if k in s.table && k != id { SubmitElsewhere(s, k, maxResolution, w, id); }
  }

  lemma CancelRests(s: Service, k: int, cupsCancels: bool, id: int)
    requires id in s.table && k != id
    ensures Rests(s, StepCancel(s, k, cupsCancels).0, id)
  {
    hide StateEvent;
  }

  lemma EditRests(s: Service, k: int, edits: Edits, id: int)
    requires id in s.table && !s.table[id].phase.Open?
    ensures Rests(s, StepEdit(s, k, edits).0, id)
  {
    hide Edited;
  }

  lemma ClosedAtPoll(s: Service, answers: int -> Option<CupsJobState>, id: int)
    requires TableInv(s) && id in s.table && !s.table[id].phase.Submitted?
    ensures Rests(s, StepPoll(s, answers), id)
  {
    assert s.streams[id] + [] == s.streams[id];
  }

  lemma NewTempFileRests(s: Service, k: int, ext: string, size: int, created: bool, reserved: bool, id: int)
    requires id in s.table
    ensures Rests(s, StepNewTempFile(s, k, ext, size, created, reserved).0, id)
  {
    hide TempPath;
  }

  lemma AddFileRests(s: Service, k: int, path: string, check: FileCheck, page: Option<int>, total: Option<int>, id: int)
    requires id in s.table && !s.table[id].phase.Open?
    ensures Rests(s, StepAddFile(s, k, path, check, page, total).0, id)
  {}
}
