/** The job table as a state machine: one step for every handler and for the poll timer. */
module JobModel {
  import opened Prelude
  import opened PrintErrors
  import ParamMap
  import opened PrintableArea
  import opened CupsOptions
  import opened CupsSubmit
  import opened EditParams
  import opened SpoolPaths
  import opened StateReasons

  const SPOOL_ROOT := "/var/spool/luneos-print"
  const USEC_PER_SEC := 1000000

  // ------------------------------------------------------------------- records

  datatype Phase = Open | Submitted | Done | Cancelled

  datatype Job = Job(
    jobId: nat, cupsJobId: int, printerId: string, description: string, appName: string,
    params: PrintParams, files: seq<string>, tempFiles: seq<string>, tempDir: Option<string>,
    phase: Phase, currentPage: int, totalPages: int, lastPrinterState: Option<string>,
    queuedAt: nat, startedAt: nat)

  /** The part of a status event that depends on whether it is terminal. */
  datatype Detail =
    | Times(timeActive: int, timeFromQueued: int)
    | Progress(currentPage: int, totalPages: int, blockedReasons: seq<string>)

  /** What getStatus subscribers receive about one job. */
  datatype Event =
    | PageStart(pageNum: int, totalPages: int)
    | StateChange(printerState: string, jobStatus: Option<string>, detail: Detail)

  /** The input a job's submission to CUPS was built from, and the answers it met. */
  datatype Submission = Submission(printer: string, title: string, files: seq<string>,
                                   params: JobParams, maxResolution: int, world: World)
  {
    function Calls(): seq<Call> {
      SubmitCalls(printer, Some(title), files, params, world).0
    }

    function Result(): SubmitResult {
      SubmitCalls(printer, Some(title), files, params, world).1
    }
  }

  /** What removing a job takes from the file system. */
  datatype Cleanup = Unlinked(path: string) | DirRemoved(dir: string)

  /** A scratch path given to a client. */
  datatype Handed = Handed(jobId: nat, number: nat, path: string)

  datatype Service = Service(
    table: map<int, Job>, nextId: nat, polling: bool, clock: nat,
    streams: map<int, seq<Event>>,      // every status event so far, by job id
    cups: seq<Call>,                    // every call made to CUPS but the queries of a job's state
    submissions: map<int, Submission>,
    handed: seq<Handed>,
    cleanups: seq<Cleanup>)

  function InitialService(clock: nat): Service {
    Service(map[], 1, false, clock, map[], [], map[], [], [])
  }

  // ---------------------------------------------------------------- operations

  datatype FileCheck = Missing | Empty | Unrecognised | Printable

  /** An element of pathNames. */
  datatype Item = NotAString | Path(path: string, check: FileCheck)

  datatype CupsJobState = CupsJobState(ippState: int, reasons: seq<string>, isToner: bool)

  // Besides its arguments an operation carries the answers of the file system and of CUPS.
  datatype Op =
    | Advance(elapsed: nat)
    | OpenJob(printer: string, description: string, appName: string, dirMade: bool)
    | Edit(jobId: int, edits: Edits)
    | NewTempFile(jobId: int, extension: string, size: int, created: bool, reserved: bool)
    | AddFile(jobId: int, path: string, check: FileCheck, currentPage: Option<int>, totalPages: Option<int>)
    | Close(jobId: int, maxResolution: Option<int>, world: World)
    | Cancel(jobId: int, cupsCancels: bool)
    | AllAtOnce(printer: string, description: string, appName: string, dirMade: bool,
                autoScale: Option<bool>, items: seq<Item>, maxResolution: Option<int>, world: World)
    | Poll(answers: int -> Option<CupsJobState>)
    | QueryCapabilities(printer: string)

  datatype Reply = Success | NewJob(jobId: int) | NewPath(path: string) | Failure(err: int)

  function StreamOf(streams: map<int, seq<Event>>, id: int): seq<Event> {
    if id in streams then streams[id] else []
  }

  function Post(streams: map<int, seq<Event>>, id: int, e: Event): map<int, seq<Event>> {
    streams[id := StreamOf(streams, id) + [e]]
  }

  /** post_job_state. */
  function StateEvent(job: Job, printerState: string, jobStatus: Option<string>, blocked: seq<string>, now: int): Event {
    StateChange(printerState, jobStatus,
      if printerState == "DONE" then
        Times(if job.startedAt != 0 then (now - job.startedAt) / USEC_PER_SEC else 0, (now - job.queuedAt) / USEC_PER_SEC)
      else
        Progress(job.currentPage, job.totalPages, blocked))
  }

  function FreshJob(id: nat, printer: string, description: string, appName: string, dirMade: bool, now: nat): Job {
    Job(id, -1, printer, description, appName, InitialParams(), [], [],
        if dirMade then Some(TempDir(SPOOL_ROOT, id)) else None, Open, 0, -1, None, now, 0)
  }

  /** job_manager_open. */
  function Opened(s: Service, printer: string, description: string, appName: string, dirMade: bool): Service {
    s.(table := s.table[s.nextId := FreshJob(s.nextId, printer, description, appName, dirMade, s.clock)],
       streams := s.streams[s.nextId := StreamOf(s.streams, s.nextId)],
       nextId := s.nextId + 1)
  }

  function StepEdit(s: Service, id: int, edits: Edits): (Service, Reply) {
    if id !in s.table then (s, Failure(UNKNOWN_JOB_ID))
    else if s.table[id].phase != Open then (s, Failure(JOB_ALREADY_CLOSED))
    else
      var (p, err) := Edited(s.table[id].params, edits);
      (s.(table := s.table[id := s.table[id].(params := p)]),
       match err case None => Success case Some(e) => Failure(e))
  }

  function StepNewTempFile(s: Service, id: int, ext: string, size: int, created: bool, reserved: bool): (Service, Reply) {
    if id !in s.table then (s, Failure(UNKNOWN_JOB_ID))
    else if ext == "" then (s, Failure(EMPTY_FILE_EXTENSION))
    else
      var job := s.table[id];
      if job.tempDir.None? || !created then (s, Failure(NO_FILECACHE_PATH))
      else if size > 0 && !reserved then (s, Failure(JOB_TEMP_FILE_NO_ROOM))
      else
        var number := |job.tempFiles| + 1;
        var path := TempPath(job.tempDir.value, number, ext);
        (s.(table := s.table[id := job.(tempFiles := job.tempFiles + [path])],
            handed := s.handed + [Handed(job.jobId, number, path)]), NewPath(path))
  }

  function CheckError(c: FileCheck): Option<int> {
    match c
    case Missing => Some(FILE_DOES_NOT_EXIST)
    case Empty => Some(FILE_ZERO_LENGTH)
    case Unrecognised => Some(UNSUPPORTED_MIME_TYPE)
    case Printable => None
  }

  function StepAddFile(s: Service, id: int, path: string, check: FileCheck, page: Option<int>, total: Option<int>)
    : (Service, Reply)
  {
    if id !in s.table then (s, Failure(UNKNOWN_JOB_ID))
    else if s.table[id].phase != Open then (s, Failure(JOB_ALREADY_CLOSED))
    else if CheckError(check).Some? then (s, Failure(CheckError(check).value))
    else
      var job := s.table[id];
      if page.Some? && page.value != |job.files| + 1 then (s, Failure(OUT_OF_ORDER_CURRENTPAGE))
      else
        var job' := job.(currentPage := Or(page, job.currentPage), totalPages := Or(total, job.totalPages),
                         files := job.files + [path]);
        (s.(table := s.table[id := job'], streams := Post(s.streams, id, PageStart(|job'.files|, job'.totalPages))),
         Success)
  }

  /** The submission submit_job builds from a job. */
  function SubmissionOf(job: Job, maxResolution: Option<int>, w: World): Submission {
    var maxRes := Or(maxResolution, 0);
    Submission(job.printerId, job.description, job.files, BuildParams(job.params, maxRes), maxRes, w)
  }

  /** The capabilities are asked for, and a job made for CUPS. */
  function SubmissionOnRecord(s: Service, id: int, sub: Submission): Service {
    s.(cups := s.cups + [QueryCaps(sub.printer)] + sub.Calls(), submissions := s.submissions[id := sub])
  }

  /** CUPS took job id as its job cupsId. */
  function Queued(s: Service, id: int, cupsId: int): Service
    requires id in s.table
  {
    var job := s.table[id];
    var job' := job.(cupsJobId := cupsId, phase := Phase.Submitted,
                     totalPages := if job.totalPages < 0 then |job.files| else job.totalPages);
    s.(table := s.table[id := job'.(lastPrinterState := Some("QUEUED"))],
       streams := Post(s.streams, id, StateEvent(job', "QUEUED", None, [], s.clock)),
       polling := true)
  }

  /** submit_job; the error is None on success. */
  function SubmitJob(s: Service, id: int, maxResolution: Option<int>, w: World): (Service, Option<int>)
    requires id in s.table
  {
    var job := s.table[id];
    if job.files == [] then (s, Some(NO_FILES_TO_PRINT))
    else
      var sub := SubmissionOf(job, maxResolution, w);
      var s1 := SubmissionOnRecord(s, id, sub);
      match sub.Result()
      case Refused(e) => (s1, Some(e))
      case Submitted(cupsId) => (Queued(s1, id, cupsId), None)
  }

  /** The job ends in `phase` with a DONE event. */
  function Finish(s: Service, id: int, phase: Phase, status: string): Service
    requires id in s.table
  {
    s.(table := s.table[id := s.table[id].(phase := phase)],
       streams := Post(s.streams, id, StateEvent(s.table[id], "DONE", Some(status), [], s.clock)))
  }

  lemma SubmitKeepsJob(s: Service, id: int, maxResolution: Option<int>, w: World)
    requires id in s.table
    ensures id in SubmitJob(s, id, maxResolution, w).0.table
  {}

  lemma RefusedKeepsTable(s: Service, id: int, maxResolution: Option<int>, w: World)
    requires id in s.table
    ensures var (s', err) := SubmitJob(s, id, maxResolution, w);
            err.Some? ==> s'.table == s.table && s'.clock == s.clock
  {}

  function StepClose(s: Service, id: int, maxResolution: Option<int>, w: World): (Service, Reply) {
    if id !in s.table then (s, Failure(UNKNOWN_JOB_ID))
    else if s.table[id].phase != Open then (s, Failure(JOB_ALREADY_CLOSED))
    else if s.table[id].files == [] then (Finish(s, id, Done, "Success"), Success)
    else
      var (s1, err) := SubmitJob(s, id, maxResolution, w);
      match err
      case None => (s1, Success)
      case Some(e) => SubmitKeepsJob(s, id, maxResolution, w); (Finish(s1, id, Done, "Error"), Failure(e))
  }

  function StepCancel(s: Service, id: int, cupsCancels: bool): (Service, Reply) {
    if id !in s.table then (s, Failure(UNKNOWN_JOB_ID))
    else
      var job := s.table[id];
      if job.phase == Phase.Submitted && job.cupsJobId > 0 then
        var s1 := s.(cups := s.cups + [CancelJob(job.printerId, job.cupsJobId)]);
        if !cupsCancels then (s1, Failure(JOB_CANCEL_FAILED)) else (Finish(s1, id, Cancelled, "Cancelled"), Success)
      else (Finish(s, id, Cancelled, "Cancelled"), Success)
  }

  function ItemError(i: Item): Option<int> {
    match i case NotAString => Some(BAD_PARAM_SYNTAX) case Path(_, check) => CheckError(check)
  }

  /** The error of the first bad element. */
  function FirstItemError(items: seq<Item>): Option<int> {
    if items == [] then None
    else if ItemError(items[0]).Some? then ItemError(items[0])
    else FirstItemError(items[1..])
  }

  function PathsOf(items: seq<Item>): seq<string>
    requires FirstItemError(items).None?
  {
    if items == [] then [] else [items[0].path] + PathsOf(items[1..])
  }

  /** job_free: the job's own scratch files go, then its directory; files the client supplied stay. */
  function Freed(job: Job): seq<Cleanup> {
    seq(|job.tempFiles|, i requires 0 <= i < |job.tempFiles| => Unlinked(job.tempFiles[i]))
    + (if job.tempDir.Some? then [DirRemoved(job.tempDir.value)] else [])
  }

  /** job_manager_remove. */
  function Remove(s: Service, id: int): Service {
    s.(table := s.table - {id}, cleanups := s.cleanups + if id in s.table then Freed(s.table[id]) else [])
  }

  /** The table with the new job opened and holding every path, just before it is submitted. */
  function Filled(s: Service, printer: string, description: string, appName: string, dirMade: bool,
                  autoScale: Option<bool>, items: seq<Item>): Service
    requires FirstItemError(items).None?
  {
    var s1 := Opened(s, printer, description, appName, dirMade);
    var job := FreshJob(s.nextId, printer, description, appName, dirMade, s.clock);
    s1.(table := s1.table[s.nextId := job.(params := job.params.(autoScale := Or(autoScale, job.params.autoScale)),
                                           files := PathsOf(items), totalPages := |items|)])
  }

  /** Submits the filled job; a job CUPS refuses leaves the table again. */
  function SubmitFilled(s: Service, id: int, maxResolution: Option<int>, w: World): (Service, Reply)
    requires id in s.table
  {
    var (s1, err) := SubmitJob(s, id, maxResolution, w);
    match err
    case None => (s1, NewJob(id))
    case Some(e) =>
      (Remove(s1.(streams := Post(s1.streams, id, StateEvent(s.table[id], "DONE", Some("Error"), [], s.clock))), id),
       Failure(e))
  }

  function StepAllAtOnce(s: Service, printer: string, description: string, appName: string, dirMade: bool,
                         autoScale: Option<bool>, items: seq<Item>, maxResolution: Option<int>, w: World)
    : (Service, Reply)
  {
    if items == [] then (s, Failure(NO_FILES_TO_PRINT))
    else if FirstItemError(items).Some? then
      (Remove(Opened(s, printer, description, appName, dirMade), s.nextId), Failure(FirstItemError(items).value))
    else
      SubmitFilled(Filled(s, printer, description, appName, dirMade, autoScale, items), s.nextId, maxResolution, w)
  }

  /** The treatment of one job by a poll tick, whatever the others are. */
  function PollJob(job: Job, answer: Option<CupsJobState>, now: nat): (Job, seq<Event>) {
    if job.phase != Phase.Submitted then (job, [])
    else match answer
      case None => (job.(phase := Done), [StateEvent(job, "DONE", Some("Success"), [], now)])
      case Some(a) =>
        var (state, status) := ParamMap.JobState(a.ippState);
        if job.lastPrinterState == Some(state) then (job, [])
        else
          var job' := if state == "RUNNING" && job.startedAt == 0 then job.(startedAt := now) else job;
          (job'.(lastPrinterState := Some(state), phase := if state == "DONE" then Done else job'.phase),
           [StateEvent(job', state, status, BlockedReasons(a.reasons, a.isToner), now)])
  }

  function PollEvents(s: Service, id: int, answers: int -> Option<CupsJobState>): seq<Event> {
    if id in s.table then PollJob(s.table[id], answers(id), s.clock).1 else []
  }

  predicate AnySubmitted(table: map<int, Job>) {
    exists id :: id in table && table[id].phase == Phase.Submitted
  }

  function StepPoll(s: Service, answers: int -> Option<CupsJobState>): Service {
    s.(table := map id | id in s.table :: PollJob(s.table[id], answers(id), s.clock).0,
       streams := map id | id in s.streams :: s.streams[id] + PollEvents(s, id, answers),
       polling := s.polling && AnySubmitted(s.table))
  }

  function Step(s: Service, op: Op): (Service, Reply) {
    match op
    case Advance(elapsed) => (s.(clock := s.clock + elapsed), Success)
    case OpenJob(printer, description, appName, dirMade) =>
      (Opened(s, printer, description, appName, dirMade), NewJob(s.nextId))
    case Edit(id, edits) => StepEdit(s, id, edits)
    case NewTempFile(id, ext, size, created, reserved) => StepNewTempFile(s, id, ext, size, created, reserved)
    case AddFile(id, path, check, page, total) => StepAddFile(s, id, path, check, page, total)
    case Close(id, maxResolution, w) => StepClose(s, id, maxResolution, w)
    case Cancel(id, cupsCancels) => StepCancel(s, id, cupsCancels)
    case AllAtOnce(printer, description, appName, dirMade, autoScale, items, maxResolution, w) =>
      StepAllAtOnce(s, printer, description, appName, dirMade, autoScale, items, maxResolution, w)
    case Poll(answers) => (StepPoll(s, answers), Success)
    case QueryCapabilities(printer) => (s.(cups := s.cups + [QueryCaps(printer)]), Success)
  }

  function Run(s: Service, ops: seq<Op>): Service
    decreases |ops|
  {
    if ops == [] then s else Run(Step(s, ops[0]).0, ops[1..])
  }
}
