/** Scratch files and clocks over a whole run. */
module JobScratch {
  import opened Prelude
  import opened EditParams
  import opened SpoolPaths
  import opened CupsSubmit
  import opened StateReasons
  import ParamMap
  import opened JobModel
  import opened JobSteps
  import opened JobInvariants
  import opened JobHistory

  // -------------------------------------------------------------- scratch paths

  /** The k-th scratch file of a job is its page k + 1. */
  ghost predicate OwnNames(job: Job) {
    && (job.tempDir.Some? ==> job.tempDir.value == TempDir(SPOOL_ROOT, job.jobId))
    && forall k: nat :: k < |job.tempFiles| ==> Names(SPOOL_ROOT, job.jobId, k + 1, job.tempFiles[k])
  }

  ghost predicate HandedOk(s: Service, h: Handed) {
    && h.jobId < s.nextId && Names(SPOOL_ROOT, h.jobId, h.number, h.path)
    && (h.jobId in s.table ==> h.number <= |s.table[h.jobId].tempFiles|)
  }

  ghost predicate ScratchInv(s: Service) {
    && (forall id :: id in s.table ==> OwnNames(s.table[id]))
    && (forall k :: 0 <= k < |s.handed| ==> HandedOk(s, s.handed[k]))
    && (forall i, j :: 0 <= i < j < |s.handed| ==>
          s.handed[i].jobId != s.handed[j].jobId || s.handed[i].number != s.handed[j].number)
  }

  /** A step that touches no scratch files. */
  ghost predicate KeepsScratch(s: Service, s': Service) {
    && s'.handed == s.handed && s.nextId <= s'.nextId
    && forall id :: id in s'.table ==> if id in s.table then SameScratch(s.table[id], s'.table[id])
                                       else id >= s.nextId && NoScratch(s'.table[id])
  }

  ghost predicate SameScratch(a: Job, b: Job) {
    b.jobId == a.jobId && b.tempFiles == a.tempFiles && b.tempDir == a.tempDir
  }

  ghost predicate NoScratch(job: Job) {
    job.tempFiles == [] && (job.tempDir.Some? ==> job.tempDir.value == TempDir(SPOOL_ROOT, job.jobId))
  }

  lemma KeepsScratchInv(s: Service, s': Service)
    requires ScratchInv(s) && KeepsScratch(s, s')
    ensures ScratchInv(s')
  {
    hide Names, TempDir;
  }

  lemma SubmitKeepsScratch(s: Service, id: int, maxResolution: Option<int>, w: World)
    requires id in s.table
    ensures KeepsScratch(s, SubmitJob(s, id, maxResolution, w).0)
    ensures SubmitJob(s, id, maxResolution, w).0.table.Keys == s.table.Keys
  {
    var s1, err, cupsId := SubmitCases(s, id, maxResolution, w);
    hide SubmitJob, Queued, NoScratch, Recorded;
    if err.None? {
      var job, e := QueuedParts(s1, id, cupsId);
    }
  }

  lemma CloseKeepsScratch(s: Service, id: int, maxResolution: Option<int>, w: World)
    ensures KeepsScratch(s, StepClose(s, id, maxResolution, w).0)
  {
    hide StateEvent, SubmitJob, NoScratch;
    if id in s.table { SubmitKeepsScratch(s, id, maxResolution, w); }
  }

  lemma SubmitFilledKeepsScratch(s: Service, id: int, maxResolution: Option<int>, w: World)
    requires id in s.table
    ensures KeepsScratch(s, SubmitFilled(s, id, maxResolution, w).0)
  {
    var s1, err, cupsId, e := SubmitFilledCases(s, id, maxResolution, w);
    SubmitKeepsScratch(s, id, maxResolution, w);
    hide SubmitFilled, SubmitJob, Queued, Freed, NoScratch;
  }

  lemma KeepsScratchTwice(a: Service, b: Service, c: Service)
    requires TableInv(a) && KeepsScratch(a, b) && KeepsScratch(b, c) && c.table.Keys <= b.table.Keys
    ensures KeepsScratch(a, c)
  {
    hide JobOk, TempDir;
  }

  lemma JoinedKeepsScratch(s: Service, s1: Service)
    requires TableInv(s) && Joined(s, s1)
    ensures KeepsScratch(s, s1)
  {
    hide JobOk, TempDir;
  }

  lemma AllAtOnceKeepsScratch(s: Service, op: Op)
    requires TableInv(s) && op.AllAtOnce?
    ensures KeepsScratch(s, Step(s, op).0)
  {
    var s1 := AllAtOnceCases(s, op);
    if op.items == [] {
      hide StepAllAtOnce, JobOk;
    } else {
      JoinedKeepsScratch(s, s1);
      if FirstItemError(op.items).None? {
        SubmitFilledKeepsScratch(s1, s.nextId, op.maxResolution, op.world);
        SubmitFilledRest(s1, s.nextId, op.maxResolution, op.world);
      }
      hide Step, Filled, Opened, SubmitFilled, FirstItemError, Joined, Freed, TableInv;
      KeepsScratchTwice(s, s1, Step(s, op).0);
    }
  }

  lemma NewTempFileScratch(s: Service, id: int, ext: string, size: int, created: bool, reserved: bool)
    requires TableInv(s) && ScratchInv(s)
    ensures ScratchInv(StepNewTempFile(s, id, ext, size, created, reserved).0)
  {
    hide JobOk, ScratchInv, TempPath;
    var (s', reply) := StepNewTempFile(s, id, ext, size, created, reserved);
    if reply.NewPath? {
      DirIsOwn(s, id);
      PathIsNamed(id, |s.table[id].tempFiles| + 1, ext);
      OneMorePath(s, s', id, reply.path);
    }
  }

  lemma DirIsOwn(s: Service, id: int)
    requires ScratchInv(s) && id in s.table && s.table[id].jobId == id
    ensures s.table[id].tempDir.Some? ==> s.table[id].tempDir.value == TempDir(SPOOL_ROOT, id)
  {
    hide Names;
    assert OwnNames(s.table[id]);
  }

  lemma OneMorePath(s: Service, s': Service, id: int, path: string)
    requires TableInv(s) && ScratchInv(s) && id in s.table && s'.nextId == s.nextId
    requires Names(SPOOL_ROOT, id, |s.table[id].tempFiles| + 1, path)
    requires s'.table == s.table[id := s.table[id].(tempFiles := s.table[id].tempFiles + [path])]
    requires s'.handed == s.handed + [Handed(id, |s.table[id].tempFiles| + 1, path)]
    ensures ScratchInv(s')
  {
    hide JobOk, Names, TempDir;
    forall k | 0 <= k < |s'.handed|
      ensures HandedOk(s', s'.handed[k])
    {
      if k < |s.handed| { assert HandedOk(s, s.handed[k]); }
    }
    forall k | 0 <= k < |s.handed|
      ensures s.handed[k].jobId != id || s.handed[k].number <= |s.table[id].tempFiles|
    {
      assert HandedOk(s, s.handed[k]);
    }
  }

  lemma PathIsNamed(id: nat, number: nat, ext: string)
    ensures Names(SPOOL_ROOT, id, number, TempPath(TempDir(SPOOL_ROOT, id), number, ext))
  {}

  lemma ScratchStep(s: Service, op: Op)
    requires TableInv(s) && ScratchInv(s)
    ensures ScratchInv(Step(s, op).0)
  {
    hide JobOk, ScratchInv, StepNewTempFile, StepClose, StepAllAtOnce, StepPoll, StepAddFile, StateEvent, Edited, TempDir;
    match op
    case NewTempFile(id, ext, size, created, reserved) => NewTempFileScratch(s, id, ext, size, created, reserved);
    case Close(id, maxResolution, w) =>
      CloseKeepsScratch(s, id, maxResolution, w);
      KeepsScratchInv(s, Step(s, op).0);
    case AllAtOnce(_, _, _, _, _, _, _, _) =>
      AllAtOnceKeepsScratch(s, op);
      KeepsScratchInv(s, Step(s, op).0);
    case Poll(answers) =>
      PollKeepsScratch(s, answers);
      KeepsScratchInv(s, Step(s, op).0);
    case AddFile(id, path, check, page, total) =>
      AddFileKeepsScratch(s, id, path, check, page, total);
      KeepsScratchInv(s, Step(s, op).0);
    case _ => KeepsScratchInv(s, Step(s, op).0);
  }

  lemma PollKeepsScratch(s: Service, answers: int -> Option<CupsJobState>)
    ensures KeepsScratch(s, StepPoll(s, answers))
  {
    hide StateEvent, NoScratch;
  }

  lemma AddFileKeepsScratch(s: Service, id: int, path: string, check: FileCheck, page: Option<int>, total: Option<int>)
    ensures KeepsScratch(s, StepAddFile(s, id, path, check, page, total).0)
  {
    hide NoScratch;
  }

  lemma {:induction false} ScratchRun(s: Service, ops: seq<Op>)
    requires TableInv(s) && ScratchInv(s)
    ensures ScratchInv(Run(s, ops))
    decreases |ops|
  {
    if ops != [] {
      hide Step, TableInv, ScratchInv;
      TableStep(s, ops[0]);
      ScratchStep(s, ops[0]);
      ScratchRun(Step(s, ops[0]).0, ops[1..]);
    }
  }

  /** Over a whole run no scratch path is handed out twice, whatever the job and the extension. */
  lemma HandedPathsDistinct(clock: nat, ops: seq<Op>)
    ensures var h := Run(InitialService(clock), ops).handed;
            forall i, j :: 0 <= i < j < |h| ==> h[i].path != h[j].path
  {
    var s0 := InitialService(clock);
    InitialTableInv(clock);
    assert ScratchInv(s0);
    hide Run, Names;
    ScratchRun(s0, ops);
    var h := Run(s0, ops).handed;
    forall i, j | 0 <= i < j < |h|
      ensures h[i].path != h[j].path
    {
      if h[i].path == h[j].path {
        NamesUnique(SPOOL_ROOT, h[i].jobId, h[j].jobId, h[i].number, h[j].number, h[i].path);
      }
    }
  }

  lemma OwnedOnce(s: Service, a: int, b: int, i: nat, j: nat)
    requires TableInv(s) && ScratchInv(s) && a in s.table && b in s.table
    requires i < |s.table[a].tempFiles| && j < |s.table[b].tempFiles|
    requires s.table[a].tempFiles[i] == s.table[b].tempFiles[j]
    ensures a == b && i == j
  {
    hide Names, JobOk;
    NamesUnique(SPOOL_ROOT, s.table[a].jobId, s.table[b].jobId, i + 1, j + 1, s.table[a].tempFiles[i]);
  }

  ghost predicate DisjointScratch(table: map<int, Job>) {
    forall a, b, i: nat, j: nat ::
      a in table && b in table && i < |table[a].tempFiles| && j < |table[b].tempFiles| ==>
        table[a].tempFiles[i] == table[b].tempFiles[j] ==> a == b && i == j
  }

  /** In every run no path belongs to two jobs or twice to one. */
  lemma ScratchFilesDisjoint(clock: nat, ops: seq<Op>)
    ensures DisjointScratch(Run(InitialService(clock), ops).table)
  {
    var s0 := InitialService(clock);
    InitialTableInv(clock);
    assert ScratchInv(s0);
    hide Run, TableInv, ScratchInv;
    TableRun(s0, ops);
    ScratchRun(s0, ops);
    var s := Run(s0, ops);
    forall a, b, i: nat, j: nat | a in s.table && b in s.table && i < |s.table[a].tempFiles| && j < |s.table[b].tempFiles|
      && s.table[a].tempFiles[i] == s.table[b].tempFiles[j]
      ensures a == b && i == j
    {
      OwnedOnce(s, a, b, i, j);
    }
  }

  // ------------------------------------------------------------------- removals

  /** c is the removal of the directory of job id, which has left the table and never handed out a scratch path. */
  ghost predicate Dropped(s: Service, id: int, c: Cleanup) {
    && 1 <= id < s.nextId && id !in s.table && c == DirRemoved(TempDir(SPOOL_ROOT, id))
    && forall h :: h in s.handed ==> h.jobId != id
  }

  ghost predicate CleanInv(s: Service) {
    forall c :: c in s.cleanups ==> exists id :: Dropped(s, id, c)
  }

  /** Ids that left the table do not come back, and only jobs in it hand out paths. */
  ghost predicate StaysDropped(s: Service, s': Service) {
    && s.nextId <= s'.nextId
    && (forall id :: id in s'.table && id !in s.table ==> id >= s.nextId)
    && (forall h :: h in s'.handed ==> h in s.handed || h.jobId in s.table)
  }

  lemma KeepsCleanInv(s: Service, s': Service)
    requires CleanInv(s) && StaysDropped(s, s')
    ensures forall c :: c in s.cleanups ==> exists id :: Dropped(s', id, c)
  {
    hide TempDir;
    forall c | c in s.cleanups
      ensures exists id :: Dropped(s', id, c)
    {
      var id :| Dropped(s, id, c);
      assert Dropped(s', id, c);
    }
  }

  /** Only the job allAtOnce has just opened is ever removed. */
  lemma AllAtOnceCleanups(s: Service, op: Op)
    requires TableInv(s) && op.AllAtOnce?
    ensures var s' := Step(s, op).0;
            && s'.handed == s.handed
            && (s'.cleanups == s.cleanups
                || (s'.cleanups == s.cleanups + [DirRemoved(TempDir(SPOOL_ROOT, s.nextId))]
                    && s.nextId < s'.nextId && s.nextId !in s'.table))
  {
    var s1 := AllAtOnceCases(s, op);
    hide Step, Filled, Opened, SubmitFilled, FirstItemError, JobOk, TempDir, Freed;
    if op.items != [] {
      FreedEmpty(s1.table[s.nextId]);
      if FirstItemError(op.items).None? { SubmitFilledCleanups(s1, s.nextId, op.maxResolution, op.world); }
    }
    assert s.cleanups + [] == s.cleanups;
  }

  lemma SubmitFilledCleanups(s: Service, id: int, maxResolution: Option<int>, w: World)
    requires id in s.table
    ensures var (s', reply) := SubmitFilled(s, id, maxResolution, w);
            && s'.handed == s.handed && s'.nextId == s.nextId
            && (s'.cleanups == s.cleanups || (s'.cleanups == s.cleanups + Freed(s.table[id]) && id !in s'.table))
  {
    var s1, err, cupsId, e := SubmitFilledCases(s, id, maxResolution, w);
    hide SubmitFilled, SubmitJob, Queued, Freed;
    if err.None? {
      var job, f := QueuedParts(s1, id, cupsId);
    }
  }

  lemma SubmitCleansNothing(s: Service, id: int, maxResolution: Option<int>, w: World)
    requires id in s.table
    ensures var s' := SubmitJob(s, id, maxResolution, w).0;
            s'.cleanups == s.cleanups && s'.handed == s.handed && s'.nextId == s.nextId && s'.table.Keys == s.table.Keys
  {
    hide SubmitCalls, StateEvent;
  }

  lemma FreedEmpty(job: Job)
    requires job.tempFiles == []
    ensures Freed(job) == if job.tempDir.Some? then [DirRemoved(job.tempDir.value)] else []
  {}

  lemma OtherCleanups(s: Service, op: Op)
    requires TableInv(s) && !op.AllAtOnce?
    ensures Step(s, op).0.cleanups == s.cleanups
    ensures forall h :: h in Step(s, op).0.handed ==> h in s.handed || h.jobId in s.table
  {
    hide JobOk, StateEvent, SubmitJob, Edited, TempPath, StepPoll;
    match op
    case Close(id, maxResolution, w) => if id in s.table { SubmitCleansNothing(s, id, maxResolution, w); }
    case Poll(answers) => PollCleansNothing(s, answers);
    case _ =>
  }

  lemma PollCleansNothing(s: Service, answers: int -> Option<CupsJobState>)
    ensures StepPoll(s, answers).cleanups == s.cleanups && StepPoll(s, answers).handed == s.handed
  {}

  lemma CleanStep(s: Service, op: Op)
    requires TableInv(s) && SubmissionInv(s) && ScratchInv(s) && CleanInv(s)
    ensures CleanInv(Step(s, op).0)
  {
    var s' := Step(s, op).0;
    StepLater(s, op);
    hide Step, JobOk, OwnNames, Names, TempDir, SubmissionInv, JobLater;
    if op.AllAtOnce? { AllAtOnceCleanups(s, op); } else { OtherCleanups(s, op); }
    KeepsCleanInv(s, s');
    if op.AllAtOnce? && s'.cleanups != s.cleanups {
      forall h | h in s'.handed
        ensures h.jobId != s.nextId
      {
        var k :| 0 <= k < |s.handed| && s.handed[k] == h;
        assert HandedOk(s, s.handed[k]);
      }
      assert Dropped(s', s.nextId, DirRemoved(TempDir(SPOOL_ROOT, s.nextId)));
    }
  }

  lemma {:induction false} CleanRun(s: Service, ops: seq<Op>)
    requires TableInv(s) && SubmissionInv(s) && ScratchInv(s) && CleanInv(s)
    ensures CleanInv(Run(s, ops))
    decreases |ops|
  {
    if ops != [] {
      hide Step, TableInv, SubmissionInv, ScratchInv, CleanInv;
      TableStep(s, ops[0]);
      SubmissionStep(s, ops[0]);
      ScratchStep(s, ops[0]);
      CleanStep(s, ops[0]);
      CleanRun(Step(s, ops[0]).0, ops[1..]);
    }
  }

  /**
   * In every run removing jobs unlinks no scratch file at all: each cleanup is the removal of the directory of a
   * job that left the table without ever handing out a path.
   */
  lemma RemovalsSpareScratch(clock: nat, ops: seq<Op>, c: Cleanup)
    requires c in Run(InitialService(clock), ops).cleanups
    ensures c.DirRemoved? && exists id :: Dropped(Run(InitialService(clock), ops), id, c)
  {
    var s0 := InitialService(clock);
    InitialTableInv(clock);
    assert ScratchInv(s0) && SubmissionInv(s0);
    hide Run, TempDir;
    CleanRun(s0, ops);
    var id :| Dropped(Run(s0, ops), id, c);
  }

  // -------------------------------------------------------------------- clocks

  ghost predicate Started(job: Job, now: nat) {
    job.queuedAt <= now && (job.startedAt == 0 || job.queuedAt <= job.startedAt <= now)
  }

  /** The two durations of a DONE event. */
  ghost predicate Timely(e: Event) {
    e.StateChange? && e.detail.Times? ==> 0 <= e.detail.timeActive <= e.detail.timeFromQueued
  }

  ghost predicate ClockInv(s: Service) {
    && (forall id :: id in s.table ==> Started(s.table[id], s.clock))
    && (forall id, k :: id in s.streams && 0 <= k < |s.streams[id]| ==> Timely(s.streams[id][k]))
  }

  lemma EventTimely(job: Job, state: string, status: Option<string>, blocked: seq<string>, now: nat)
    requires Started(job, now)
    ensures Timely(StateEvent(job, state, status, blocked, now))
  {}

  lemma PostTimely(streams: map<int, seq<Event>>, id: int, e: Event)
    requires Timely(e) && forall id, k :: id in streams && 0 <= k < |streams[id]| ==> Timely(streams[id][k])
    ensures var p := Post(streams, id, e); forall id, k :: id in p && 0 <= k < |p[id]| ==> Timely(p[id][k])
  {
    hide Timely;
  }

  lemma OneEventClock(s: Service, s': Service, id: int, e: Event)
    requires ClockInv(s) && s'.clock == s.clock && Timely(e)
    requires s'.streams == Post(s.streams, id, e)
    requires forall k :: k in s'.table ==>
               Started(s'.table[k], s.clock) || (k in s.table && s'.table[k] == s.table[k])
    ensures ClockInv(s')
  {
    hide Timely, Started;
    PostTimely(s.streams, id, e);
  }

  lemma SubmitClock(s: Service, id: int, maxResolution: Option<int>, w: World)
    requires ClockInv(s) && id in s.table
    ensures ClockInv(SubmitJob(s, id, maxResolution, w).0)
    ensures SubmitJob(s, id, maxResolution, w).0.clock == s.clock
    ensures SubmitJob(s, id, maxResolution, w).0.table.Keys == s.table.Keys
    ensures SubmitJob(s, id, maxResolution, w).1.Some? ==> SubmitJob(s, id, maxResolution, w).0.table == s.table
  {
    var s1, err, cupsId := SubmitCases(s, id, maxResolution, w);
    hide SubmitJob, Queued, Timely, Recorded;
    if err.None? {
      var job, e := QueuedParts(s1, id, cupsId);
      var s' := Queued(s1, id, cupsId);
      assert Timely(e) by { LiveIsTimely(e); }
      OneEventClock(s, s', id, e);
    }
  }

  lemma LiveIsTimely(e: Event)
    requires e.StateChange? && e.detail.Progress?
    ensures Timely(e)
  {}

  lemma FinishClock(s: Service, id: int, phase: Phase, status: string)
    requires ClockInv(s) && id in s.table
    ensures ClockInv(Finish(s, id, phase, status))
  {
    hide StateEvent, Timely;
    EventTimely(s.table[id], "DONE", Some(status), [], s.clock);
    OneEventClock(s, Finish(s, id, phase, status), id, StateEvent(s.table[id], "DONE", Some(status), [], s.clock));
  }

  lemma CloseClock(s: Service, id: int, maxResolution: Option<int>, w: World)
    requires ClockInv(s)
    ensures ClockInv(StepClose(s, id, maxResolution, w).0)
  {
    hide ClockInv, SubmitJob, Finish;
    if id in s.table {
      SubmitClock(s, id, maxResolution, w);
      FinishClock(s, id, Done, "Success");
      FinishClock(SubmitJob(s, id, maxResolution, w).0, id, Done, "Error");
    }
  }

  lemma CancelClock(s: Service, id: int, cupsCancels: bool)
    requires ClockInv(s)
    ensures ClockInv(StepCancel(s, id, cupsCancels).0)
  {
    hide Finish, Timely;
    if id in s.table {
      FinishClock(s, id, Cancelled, "Cancelled");
      FinishClock(s.(cups := s.cups + [CancelJob(s.table[id].printerId, s.table[id].cupsJobId)]), id, Cancelled, "Cancelled");
    }
  }

  lemma SubmitFilledClock(s: Service, id: int, maxResolution: Option<int>, w: World)
    requires ClockInv(s) && id in s.table
    ensures ClockInv(SubmitFilled(s, id, maxResolution, w).0)
  {
    var s1, err, cupsId, e := SubmitFilledCases(s, id, maxResolution, w);
    SubmitClock(s, id, maxResolution, w);
    EventTimely(s.table[id], "DONE", Some("Error"), [], s.clock);
    hide SubmitFilled, SubmitJob, Queued, Freed, StateEvent, Timely, Started;
    if err.Some? { OneEventClock(s1, SubmitFilled(s, id, maxResolution, w).0, id, e); }
  }

  lemma JoinedClock(s: Service, s1: Service)
    requires TableInv(s) && ClockInv(s) && Joined(s, s1)
    ensures ClockInv(s1)
  {
    hide JobOk, Timely, TempDir;
  }

  lemma AllAtOnceClock(s: Service, op: Op)
    requires TableInv(s) && ClockInv(s) && op.AllAtOnce?
    ensures ClockInv(Step(s, op).0)
  {
    var s1 := AllAtOnceCases(s, op);
    hide Step, Filled, Opened, SubmitFilled, FirstItemError, Joined, Freed, TableInv, Timely, Started;
    if op.items != [] {
      JoinedClock(s, s1);
      if FirstItemError(op.items).None? { SubmitFilledClock(s1, s.nextId, op.maxResolution, op.world); }
    }
  }

  lemma PollClock(s: Service, answers: int -> Option<CupsJobState>)
    requires ClockInv(s)
    ensures ClockInv(StepPoll(s, answers))
  {
    hide Timely, StateEvent;
    var s' := StepPoll(s, answers);
    forall id, k | id in s'.streams && 0 <= k < |s'.streams[id]|
      ensures Timely(s'.streams[id][k])
    {
      if k >= |s.streams[id]| { PollTimely(s.table[id], answers(id), s.clock); }
    }
  }

  lemma PollTimely(job: Job, answer: Option<CupsJobState>, now: nat)
    requires Started(job, now)
    ensures Started(PollJob(job, answer, now).0, now)
    ensures forall k :: 0 <= k < |PollJob(job, answer, now).1| ==> Timely(PollJob(job, answer, now).1[k])
  {
    hide Timely, StateEvent, BlockedReasons;
    EventTimely(job, "DONE", Some("Success"), [], now);
    if answer.Some? {
      var (state, status) := ParamMap.JobState(answer.value.ippState);
      var job' := if state == "RUNNING" && job.startedAt == 0 then job.(startedAt := now) else job;
      EventTimely(job', state, status, BlockedReasons(answer.value.reasons, answer.value.isToner), now);
    }
  }

  lemma AddFileClock(s: Service, id: int, path: string, check: FileCheck, page: Option<int>, total: Option<int>)
    requires ClockInv(s)
    ensures ClockInv(StepAddFile(s, id, path, check, page, total).0)
  {
    var (s', reply) := StepAddFile(s, id, path, check, page, total);
    if reply.Success? {
      OneEventClock(s, s', id, PageStart(|s'.table[id].files|, s'.table[id].totalPages));
    }
  }

  lemma ClockStep(s: Service, op: Op)
    requires TableInv(s) && ClockInv(s)
    ensures ClockInv(Step(s, op).0)
  {
    hide JobOk, Timely, StepAddFile, StepClose, StepCancel, StepAllAtOnce, StepPoll, Edited, TempPath;
    match op
    case AddFile(id, path, check, page, total) => AddFileClock(s, id, path, check, page, total);
    case Close(id, maxResolution, w) => CloseClock(s, id, maxResolution, w);
    case Cancel(id, cupsCancels) => CancelClock(s, id, cupsCancels);
    case AllAtOnce(_, _, _, _, _, _, _, _) => AllAtOnceClock(s, op);
    case Poll(answers) => PollClock(s, answers);
    case _ =>
  }

  /** In every run a DONE event reports an active time between zero and the time since the job was opened. */
  lemma {:induction false} TimesOrdered(s: Service, ops: seq<Op>)
    requires TableInv(s) && ClockInv(s)
    ensures ClockInv(Run(s, ops))
    decreases |ops|
  {
    if ops != [] {
      hide Step, TableInv, ClockInv;
      TableStep(s, ops[0]);
      ClockStep(s, ops[0]);
      TimesOrdered(Step(s, ops[0]).0, ops[1..]);
    }
  }
}
