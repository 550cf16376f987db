/** What status events say about their job, and when a job is taken to have started, over whole runs. */
module JobEvents {
  import opened Prelude
  import ParamMap
  import opened CupsSubmit
  import opened EditParams
  import opened SpoolPaths
  import opened StateReasons
  import opened JobModel
  import opened JobSteps
  import opened JobInvariants
  import opened JobHistory
  import opened JobFiles

  // ------------------------------------------------------------------- what events say

  /** n whole seconds passed between two moments in microseconds. */
  ghost predicate Seconds(n: int, from: int, to: int) {
    1000000 * n <= to - from < 1000000 * (n + 1)
  }

  /**
   * A page event names the last file and the page total. A terminal event gives the seconds since the job started,
   * zero if it never did, and since it was opened; any other event its pages and what blocks the printer.
   */
  ghost predicate Describes(e: Event, job: Job, now: nat, blocked: seq<string>) {
    match e
    case PageStart(number, total) => number == |job.files| && total == job.totalPages
    case StateChange(state, _, detail) =>
      if state == "DONE" then
        && detail.Times?
        && (if job.startedAt == 0 then detail.timeActive == 0 else Seconds(detail.timeActive, job.startedAt, now))
        && Seconds(detail.timeFromQueued, job.queuedAt, now)
      else
        detail == Progress(job.currentPage, job.totalPages, blocked)
  }

  /** Times and pages of two records of a job agree. */
  ghost predicate SameTimes(a: Job, b: Job) {
    a.startedAt == b.startedAt && a.queuedAt == b.queuedAt && a.currentPage == b.currentPage && a.totalPages == b.totalPages
  }

  lemma StateEventDescribes(job: Job, job': Job, state: string, status: Option<string>, blocked: seq<string>, now: nat)
    requires SameTimes(job, job')
    ensures Describes(StateEvent(job, state, status, blocked, now), job', now, blocked)
  {}

  /** The reasons that go with a job when the timer has asked about it. */
  function ReasonsFor(op: Op, id: int): seq<string> {
    if op.Poll? && op.answers(id).Some? then BlockedReasons(op.answers(id).value.reasons, op.answers(id).value.isToner) else []
  }

  /** What was added to the stream of id is this event. */
  ghost predicate Appends(s: Service, s': Service, id: int, e: Event) {
    StreamOf(s'.streams, id) == StreamOf(s.streams, id) + [e]
  }

  ghost predicate Silent(s: Service, s': Service, id: int) {
    StreamOf(s'.streams, id) == StreamOf(s.streams, id)
  }

  /** A step adds nothing to the stream, or one event that describes the job as it is now. */
  ghost predicate SaysOnce(s: Service, s': Service, id: int, blocked: seq<string>) {
    || Silent(s, s', id)
    || (id in s'.table && exists e :: Appends(s, s', id, e) && Describes(e, s'.table[id], s'.clock, blocked))
  }

  lemma PostSaysOnce(s: Service, s': Service, k: int, e: Event, id: int)
    requires s'.streams == Post(s.streams, k, e) && s'.clock == s.clock
    requires k in s'.table && Describes(e, s'.table[k], s.clock, [])
    ensures SaysOnce(s, s', id, [])
  {
    hide Describes;
    if k == id { assert Appends(s, s', id, e); }
  }

  lemma FinishSays(s: Service, k: int, phase: Phase, status: string, id: int)
    requires k in s.table
    ensures SaysOnce(s, Finish(s, k, phase, status), id, [])
  {
    var e := StateEvent(s.table[k], "DONE", Some(status), [], s.clock);
    StateEventDescribes(s.table[k], s.table[k].(phase := phase), "DONE", Some(status), [], s.clock);
    hide StateEvent, Describes, SaysOnce;
    PostSaysOnce(s, Finish(s, k, phase, status), k, e, id);
  }

  lemma SubmitSays(s: Service, k: int, maxResolution: Option<int>, w: World, id: int)
    requires k in s.table
    ensures var (s', err) := SubmitJob(s, k, maxResolution, w);
            if err.Some? then Silent(s, s', id) else SaysOnce(s, s', id, [])
  {
    var s1, err, cupsId := SubmitCases(s, k, maxResolution, w);
    if err.None? {
      var job, e := QueuedParts(s1, k, cupsId);
      hide SubmitJob, Queued, SaysOnce;
      PostSaysOnce(s, SubmitJob(s, k, maxResolution, w).0, k, e, id);
    }
  }

  lemma CloseSays(s: Service, k: int, maxResolution: Option<int>, w: World, id: int)
    ensures SaysOnce(s, StepClose(s, k, maxResolution, w).0, id, [])
  {
    hide SubmitJob, Finish, SaysOnce;
    if k in s.table && s.table[k].phase.Open? {
      if s.table[k].files == [] {
        FinishSays(s, k, Done, "Success", id);
      } else {
        SubmitSays(s, k, maxResolution, w, id);
        SubmitKeepsJob(s, k, maxResolution, w);
        var (s1, err) := SubmitJob(s, k, maxResolution, w);
        if err.Some? {
          FinishSays(s1, k, Done, "Error", id);
          SilentThen(s, s1, Finish(s1, k, Done, "Error"), id);
        }
      }
    } else {
      NothingSaid(s, id);
    }
  }

  lemma NothingSaid(s: Service, id: int)
    ensures SaysOnce(s, s, id, [])
  {}

  lemma SilentThen(s: Service, s1: Service, s2: Service, id: int)
    requires Silent(s, s1, id) && SaysOnce(s1, s2, id, [])
    ensures SaysOnce(s, s2, id, [])
  {
    hide Describes;
    if !Silent(s1, s2, id) {
      var e :| Appends(s1, s2, id, e) && Describes(e, s2.table[id], s2.clock, []);
      assert Appends(s, s2, id, e);
    }
  }

  lemma CancelSays(s: Service, k: int, cupsCancels: bool, id: int)
    ensures SaysOnce(s, StepCancel(s, k, cupsCancels).0, id, [])
  {
    hide Finish, SaysOnce;
    if k in s.table {
      var job := s.table[k];
      var s1 := s.(cups := s.cups + [CancelJob(job.printerId, job.cupsJobId)]);
      FinishSays(s, k, Cancelled, "Cancelled", id);
      FinishSays(s1, k, Cancelled, "Cancelled", id);
      assert Silent(s, s1, id);
      SilentThen(s, s1, Finish(s1, k, Cancelled, "Cancelled"), id);
      NothingSaid(s, id);
      NothingSaid(s1, id);
      SilentThen(s, s1, s1, id);
    } else {
      NothingSaid(s, id);
    }
  }

  lemma AddFileSays(s: Service, op: Op, id: int)
    requires op.AddFile?
    ensures SaysOnce(s, Step(s, op).0, id, [])
  {
    AddFileOutcome(s, op);
    if Takes(s, op, op.jobId) {
      AddFileEffect(s, op);
      hide Step, SaysOnce;
      var s' := Step(s, op).0;
      PostSaysOnce(s, s', op.jobId, PageStart(|s.table[op.jobId].files| + 1, s'.table[op.jobId].totalPages), id);
    } else {
      hide Step;
    }
  }

  lemma PollSays(s: Service, answers: int -> Option<CupsJobState>, id: int)
    requires id in s.table && id in s.streams
    ensures SaysOnce(s, StepPoll(s, answers), id, ReasonsFor(Poll(answers), id))
  {
    var s' := StepPoll(s, answers);
    var (job', events) := PollJob(s.table[id], answers(id), s.clock);
    PollDescribes(s.table[id], answers(id), s.clock, ReasonsFor(Poll(answers), id));
    hide PollJob, Describes, ReasonsFor;
    assert StreamOf(s'.streams, id) == StreamOf(s.streams, id) + events;
    if events != [] { assert Appends(s, s', id, events[0]); }
  }

  lemma PollDescribes(job: Job, answer: Option<CupsJobState>, now: nat, blocked: seq<string>)
    requires blocked == if answer.Some? then BlockedReasons(answer.value.reasons, answer.value.isToner) else []
    ensures var (job', events) := PollJob(job, answer, now);
            events == [] || exists e :: events == [e] && Describes(e, job', now, blocked)
  {
    hide StateEvent, Describes, BlockedReasons, ParamMap.JobState;
    var (job', events) := PollJob(job, answer, now);
    if events != [] {
      var (state, status) := if answer.None? then ("DONE", Some("Success")) else ParamMap.JobState(answer.value.ippState);
      var started := job.(startedAt := job'.startedAt);
      assert events == [StateEvent(started, state, status, blocked, now)];
      StateEventDescribes(started, job', state, status, blocked, now);
    }
  }

  /** In every operation but allAtOnce each new event describes its job. */
  lemma StepSays(s: Service, op: Op, id: int)
    requires TableInv(s) && id in s.table && !op.AllAtOnce?
    ensures SaysOnce(s, Step(s, op).0, id, ReasonsFor(op, id))
  {
    hide SaysOnce, StepClose, StepCancel, StepAddFile, StepPoll, JobOk;
    match op
    case Close(k, maxResolution, w) => CloseSays(s, k, maxResolution, w, id);
    case Cancel(k, cupsCancels) => CancelSays(s, k, cupsCancels, id);
    case AddFile(_, _, _, _, _) => AddFileSays(s, op, id);
    case Poll(answers) => PollSays(s, answers, id);
    case _ => QuietSays(s, op, id);
  }

  lemma QuietSays(s: Service, op: Op, id: int)
    requires op.Advance? || op.OpenJob? || op.Edit? || op.NewTempFile? || op.QueryCapabilities?
    ensures Silent(s, Step(s, op).0, id) && SaysOnce(s, Step(s, op).0, id, [])
  {
    hide Edited, TempPath, FreshJob;
  }

  // ----------------------------------------------------------------------- allAtOnce

  /** Whether or not it is refused, the one event of allAtOnce describes its job. */
  lemma AllAtOnceSays(s: Service, op: Op)
    requires TableInv(s) && op.AllAtOnce?
    ensures var s', id := Step(s, op).0, s.nextId;
            if id in s'.table then SaysOnce(s, s', id, [])
            else StreamOf(s'.streams, id) == [] || StreamOf(s'.streams, id) == [StateChange("DONE", Some("Error"), Times(0, 0))]
  {
    var s1 := AllAtOnceCases(s, op);
    if op.items != [] { JoinedStream(s, s1); }
    hide Step, Filled, Opened, SubmitFilled, FirstItemError, TableInv, SaysOnce, Freed, Joined;
    if op.items != [] && FirstItemError(op.items).None? {
      FilledSays(s1, s.nextId, op.maxResolution, op.world);
      assert Silent(s, s1, s.nextId);
      if s.nextId in Step(s, op).0.table { SilentThen(s, s1, Step(s, op).0, s.nextId); }
    }
  }

  lemma JoinedStream(s: Service, s1: Service)
    requires TableInv(s) && Joined(s, s1)
    ensures StreamOf(s.streams, s.nextId) == [] && StreamOf(s1.streams, s.nextId) == []
    ensures s.nextId in s1.table && s.nextId !in s.table
    ensures s1.table[s.nextId].queuedAt == s1.clock && s1.table[s.nextId].startedAt == 0
  {
    hide JobOk;
  }

  lemma FilledSays(s: Service, id: int, maxResolution: Option<int>, w: World)
    requires id in s.table && s.table[id].queuedAt == s.clock && s.table[id].startedAt == 0 && StreamOf(s.streams, id) == []
    ensures var s' := SubmitFilled(s, id, maxResolution, w).0;
            if id in s'.table then SaysOnce(s, s', id, [])
            else StreamOf(s'.streams, id) == [StateChange("DONE", Some("Error"), Times(0, 0))]
  {
    var s2, err, cupsId, e := SubmitFilledCases(s, id, maxResolution, w);
    SubmitSays(s, id, maxResolution, w, id);
    hide SubmitFilled, SubmitJob, Queued, SaysOnce, Freed;
    if err.None? { QueuedStays(s2, id, cupsId); } else { assert [] + [e] == [e]; }
  }

  lemma QueuedStays(s: Service, id: int, cupsId: int)
    requires id in s.table
    ensures id in Queued(s, id, cupsId).table
  {}

  // ------------------------------------------------------------------ when a job starts

  /** CUPS says for the first time that it is processing the job. */
  predicate Starts(s: Service, op: Op, id: int) {
    && op.Poll? && id in s.table && s.table[id].phase.Submitted? && s.table[id].startedAt == 0
    && op.answers(id).Some? && op.answers(id).value.ippState == 5
  }

  /** A job that has not started was not reported as running. */
  ghost predicate NotYetRunning(s: Service, id: int) {
    id in s.table && (s.table[id].startedAt == 0 ==> s.table[id].lastPrinterState != Some("RUNNING"))
  }

  lemma StartStep(s: Service, op: Op, id: int)
    requires TableInv(s) && NotYetRunning(s, id) && s.clock > 0
    ensures NotYetRunning(Step(s, op).0, id)
    ensures Step(s, op).0.table[id].startedAt == if Starts(s, op, id) then s.clock else s.table[id].startedAt
  {
    hide StateEvent, JobOk, StepAllAtOnce, StepClose, StepPoll, Edited, TempPath;
    match op
    case AllAtOnce(_, _, _, _, _, _, _, _) => AllAtOnceElsewhere(s, op, id);
    case Close(k, maxResolution, w) => CloseStartsNothing(s, k, maxResolution, w, id);
    case Poll(answers) => PollStarts(s, answers, id);
    case _ =>
  }

  lemma PollStarts(s: Service, answers: int -> Option<CupsJobState>, id: int)
    requires NotYetRunning(s, id) && s.clock > 0
    ensures NotYetRunning(StepPoll(s, answers), id)
    ensures StepPoll(s, answers).table[id].startedAt == if Starts(s, Poll(answers), id) then s.clock else s.table[id].startedAt
  {
    hide StateEvent, PollEvents;
  }

  lemma CloseStartsNothing(s: Service, k: int, maxResolution: Option<int>, w: World, id: int)
    requires NotYetRunning(s, id)
    ensures var s' := StepClose(s, k, maxResolution, w).0;
            NotYetRunning(s', id) && s'.table[id].startedAt == s.table[id].startedAt
  {
    assert id in s.table;
    hide SubmitJob, Finish, NotYetRunning;
    var s' := StepClose(s, k, maxResolution, w).0;
    if k in s.table && s.table[k].phase.Open? {
      FinishKeepsStart(s, k, Done, "Success", id);
      SubmitStartsNothing(s, k, maxResolution, w, id);
      SubmitKeepsJob(s, k, maxResolution, w);
      FinishKeepsStart(SubmitJob(s, k, maxResolution, w).0, k, Done, "Error", id);
    }
    SameStart(s, s', id);
  }

  lemma FinishKeepsStart(s: Service, k: int, phase: Phase, status: string, id: int)
    requires k in s.table && id in s.table
    ensures var s' := Finish(s, k, phase, status);
            && id in s'.table && s'.table[id].startedAt == s.table[id].startedAt
            && s'.table[id].lastPrinterState == s.table[id].lastPrinterState
  {
    hide StateEvent;
  }

  /** The start and the last report of job id, but for a QUEUED, are the same in both. */
  ghost predicate NotStarted(s: Service, s': Service, id: int) {
    && id in s.table && id in s'.table && s'.table[id].startedAt == s.table[id].startedAt
    && s'.table[id].lastPrinterState in {s.table[id].lastPrinterState, Some("QUEUED")}
  }

  lemma SameStart(s: Service, s': Service, id: int)
    requires NotYetRunning(s, id)
    ensures NotStarted(s, s', id) ==> NotYetRunning(s', id) && s'.table[id].startedAt == s.table[id].startedAt
  {}

  lemma SubmitStartsNothing(s: Service, k: int, maxResolution: Option<int>, w: World, id: int)
    requires k in s.table && id in s.table
    ensures NotStarted(s, SubmitJob(s, k, maxResolution, w).0, id)
  {
    var s1, err, cupsId := SubmitCases(s, k, maxResolution, w);
    hide SubmitJob, Queued, SubmissionOf;
    if err.None? { var job, e := QueuedParts(s1, k, cupsId); }
  }

  /** The moment a run says so; what it was before if it does not. */
  function StartOf(s: Service, ops: seq<Op>, id: int): nat
    requires id in s.table
    decreases |ops|
  {
    if ops == [] then s.table[id].startedAt
    else if Starts(s, ops[0], id) then s.clock
    else
      var s' := Step(s, ops[0]).0;
      if id in s'.table then StartOf(s', ops[1..], id) else 0
  }

  lemma ClockStep(s: Service, op: Op)
    ensures Step(s, op).0.clock == s.clock + if op.Advance? then op.elapsed else 0
  {
    hide StateEvent, Edited, TempPath, FreshJob, StepAllAtOnce, SubmissionOf, Freed;
    if op.AllAtOnce? { AllAtOnceClock(s, op); }
  }

  lemma AllAtOnceClock(s: Service, op: Op)
    requires op.AllAtOnce?
    ensures Step(s, op).0.clock == s.clock
  {
    var s1 := AllAtOnceCases(s, op);
    hide Step, Filled, Opened, SubmitFilled, SubmitJob, FirstItemError, IsNew, Freed, Queued, StateEvent, Post;
    if op.items != [] && FirstItemError(op.items).None? {
      var s2, err, cupsId, e := SubmitFilledCases(s1, s.nextId, op.maxResolution, op.world);
      if err.None? { var job, e := QueuedParts(s2, s.nextId, cupsId); }
    }
  }

  /** Once started, a job stays started at that moment. */
  lemma {:induction false} StartedOnce(s: Service, ops: seq<Op>, id: int)
    requires TableInv(s) && NotYetRunning(s, id) && s.clock > 0
    ensures id in Run(s, ops).table && Run(s, ops).table[id].startedAt == StartOf(s, ops, id)
    ensures s.table[id].startedAt != 0 ==> StartOf(s, ops, id) == s.table[id].startedAt
    decreases |ops|
  {
    if ops != [] {
      StartStep(s, ops[0], id);
      TableStep(s, ops[0]);
      ClockStep(s, ops[0]);
      hide Step, TableInv;
      StartedOnce(Step(s, ops[0]).0, ops[1..], id);
    }
  }
}
