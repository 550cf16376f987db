/** The shape of every job's status stream, over all runs. */
module JobStreams {
  import opened Prelude
  import opened CupsSubmit
  import opened EditParams
  import opened StateReasons
  import opened JobModel
  import opened JobSteps
  import opened JobInvariants

  // ---------------------------------------------------------------- the monitor

  datatype Scan =
    | Paging(pages: nat)      // page starts 1..pages so far
    | Live(last: string)      // submitted, last reported in this state
    | Finished                // DONE was reported
    | Broken

  predicate IsLive(e: Event) {
    e.StateChange? && e.printerState in {"QUEUED", "RUNNING", "BLOCKED"} && e.jobStatus.None? && e.detail.Progress?
  }

  predicate IsDone(e: Event) {
    e.StateChange? && e.printerState == "DONE" && e.jobStatus.Some? && e.detail.Times?
  }

  function ScanNext(c: Scan, e: Event): Scan {
    match c
    case Paging(n) =>
      if e.PageStart? then if e.pageNum == n + 1 then Paging(n + 1) else Broken
      else if IsDone(e) then Finished
      else if IsLive(e) && e.printerState == "QUEUED" then Live("QUEUED")
      else Broken
    case Live(last) =>
      if IsDone(e) then Finished
      else if IsLive(e) && e.printerState != last then Live(e.printerState)
      else Broken
    case Finished => if IsDone(e) && e.jobStatus == Some("Cancelled") then Finished else Broken
    case Broken => Broken
  }

  function ScanAll(t: seq<Event>): Scan {
    if t == [] then Paging(0) else ScanNext(ScanAll(t[..|t| - 1]), t[|t| - 1])
  }

  lemma ScanAppend(t: seq<Event>, e: Event)
    ensures ScanAll(t + [e]) == ScanNext(ScanAll(t), e)
  {
    hide ScanNext;
    assert (t + [e])[..|t|] == t;
  }

  // -------------------------------------------------------------- the invariant

  /** Where the stream of a job stands, by its phase. */
  ghost predicate InStep(job: Job, c: Scan) {
    match job.phase
    case Open => c == Paging(|job.files|)
    case Submitted => job.lastPrinterState.Some? && c == Live(job.lastPrinterState.value)
    case Done => c == Finished
    case Cancelled => c == Finished
  }

  ghost predicate StreamInv(s: Service) {
    && (forall id :: id in s.streams && id in s.table ==> InStep(s.table[id], ScanAll(s.streams[id])))
    && (forall id :: id in s.streams ==> ScanAll(s.streams[id]) != Broken)
  }

  /** The same for every job but one, whose stream has only page starts so far. */
  ghost predicate StreamInvBut(s: Service, id: int) {
    && (forall k :: k in s.streams && k in s.table && k != id ==> InStep(s.table[k], ScanAll(s.streams[k])))
    && (forall k :: k in s.streams ==> ScanAll(s.streams[k]) != Broken)
    && ScanAll(StreamOf(s.streams, id)).Paging?
  }

  lemma PostStreams(streams: map<int, seq<Event>>, id: int, e: Event)
    ensures ScanAll(StreamOf(Post(streams, id, e), id)) == ScanNext(ScanAll(StreamOf(streams, id)), e)
  {
    ScanAppend(StreamOf(streams, id), e);
  }

  /** Updating one job and posting one event keeps the invariant if the two move in step. */
  lemma OneEvent(s: Service, s': Service, id: int, e: Event)
    requires TableInv(s) && id in s.table && (StreamInv(s) || StreamInvBut(s, id))
    requires s'.streams == Post(s.streams, id, e)
    requires forall k :: k in s'.table && k != id ==> k in s.table && s'.table[k] == s.table[k]
    requires id in s'.table ==> InStep(s'.table[id], ScanNext(ScanAll(s.streams[id]), e))
    requires ScanNext(ScanAll(s.streams[id]), e) != Broken
    ensures StreamInv(s')
  {
    hide JobOk, InStep, ScanNext, ScanAll;
    PostStreams(s.streams, id, e);
  }

  lemma SubmitStreamInv(s: Service, id: int, maxResolution: Option<int>, w: World)
    requires TableInv(s) && StreamInvBut(s, id) && id in s.table && s.table[id].phase.Open?
    ensures SubmitJob(s, id, maxResolution, w).1.None? ==> StreamInv(SubmitJob(s, id, maxResolution, w).0)
    ensures SubmitJob(s, id, maxResolution, w).1.Some? ==>
              SubmitJob(s, id, maxResolution, w).0.table == s.table && SubmitJob(s, id, maxResolution, w).0.streams == s.streams
  {
    var s1, err, cupsId := SubmitCases(s, id, maxResolution, w);
    hide SubmitJob, Queued, JobOk, ScanAll, InStep, ScanNext, StreamInv;
    if err.None? {
      var job, e := QueuedParts(s1, id, cupsId);
      var s' := Queued(s1, id, cupsId);
      QueuedInStep(job, ScanAll(s.streams[id]), e);
      OneEvent(s, s', id, e);
    }
  }

  lemma QueuedInStep(job: Job, c: Scan, e: Event)
    requires c.Paging? && e.StateChange? && e.printerState == "QUEUED" && e.jobStatus.None? && e.detail.Progress?
    requires job.phase.Submitted? && job.lastPrinterState == Some("QUEUED")
    ensures InStep(job, ScanNext(c, e)) && ScanNext(c, e) != Broken
  {}

  lemma FinishStreamInv(s: Service, id: int, phase: Phase, status: string)
    requires TableInv(s) && StreamInv(s) && id in s.table && (phase.Done? || phase.Cancelled?)
    requires s.table[id].phase.Done? || s.table[id].phase.Cancelled? ==> status == "Cancelled"
    ensures StreamInv(Finish(s, id, phase, status))
  {
    hide JobOk, ScanAll;
    OneEvent(s, Finish(s, id, phase, status), id, StateEvent(s.table[id], "DONE", Some(status), [], s.clock));
  }

  lemma OpenedStreamInv(s: Service, printer: string, description: string, appName: string, dirMade: bool)
    requires TableInv(s) && StreamInv(s)
    ensures StreamInv(Opened(s, printer, description, appName, dirMade))
  {
    hide JobOk;
  }

  lemma AddFileStreamInv(s: Service, id: int, path: string, check: FileCheck, page: Option<int>, total: Option<int>)
    requires TableInv(s) && StreamInv(s)
    ensures StreamInv(StepAddFile(s, id, path, check, page, total).0)
  {
    hide JobOk, ScanAll;
    var (s', reply) := StepAddFile(s, id, path, check, page, total);
    if reply.Success? {
      OneEvent(s, s', id, PageStart(|s'.table[id].files|, s'.table[id].totalPages));
    }
  }

  lemma CloseStreamInv(s: Service, id: int, maxResolution: Option<int>, w: World)
    requires TableInv(s) && StreamInv(s)
    ensures StreamInv(StepClose(s, id, maxResolution, w).0)
  {
    hide JobOk, ScanAll, SubmitJob, Finish;
    if id in s.table && s.table[id].phase.Open? {
      SubmitStreamInv(s, id, maxResolution, w);
      SubmitTableInv(s, id, maxResolution, w);
      FinishStreamInv(s, id, Done, "Success");
      if SubmitJob(s, id, maxResolution, w).1.Some? {
        FinishStreamInv(SubmitJob(s, id, maxResolution, w).0, id, Done, "Error");
      }
    }
  }

  lemma CancelStreamInv(s: Service, id: int, cupsCancels: bool)
    requires TableInv(s) && StreamInv(s)
    ensures StreamInv(StepCancel(s, id, cupsCancels).0)
  {
    hide JobOk, InStep, ScanAll, Finish;
    if id in s.table {
      var job := s.table[id];
      FinishStreamInv(s, id, Cancelled, "Cancelled");
      FinishStreamInv(s.(cups := s.cups + [CancelJob(job.printerId, job.cupsJobId)]), id, Cancelled, "Cancelled");
    }
  }

  /** allAtOnce posts no page events, so its job may reach CUPS with files and no page started. */
  lemma AllAtOnceStreamInv(s: Service, op: Op)
    requires TableInv(s) && StreamInv(s) && op.AllAtOnce?
    ensures StreamInv(Step(s, op).0)
  {
    hide SubmitJob, Opened, Filled, FirstItemError, StateEvent, JobOk, InStep, ScanAll, ScanNext;
    OpenedStreamInv(s, op.printer, op.description, op.appName, op.dirMade);
    if op.items != [] && FirstItemError(op.items).None? {
      var s1 := Filled(s, op.printer, op.description, op.appName, op.dirMade, op.autoScale, op.items);
      FilledStreamInv(s, op.printer, op.description, op.appName, op.dirMade, op.autoScale, op.items);
      FilledTableInv(s, op.printer, op.description, op.appName, op.dirMade, op.autoScale, op.items);
      FilledIsOpen(s, op.printer, op.description, op.appName, op.dirMade, op.autoScale, op.items);
      SubmitTableInv(s1, s.nextId, op.maxResolution, op.world);
      SubmitStreamInv(s1, s.nextId, op.maxResolution, op.world);
      var s2 := SubmitJob(s1, s.nextId, op.maxResolution, op.world).0;
      FailedAllAtOnce(s2, s.nextId, s1.table[s.nextId], s1.clock);
    }
  }

  lemma FilledStreamInv(s: Service, printer: string, description: string, appName: string, dirMade: bool,
                        autoScale: Option<bool>, items: seq<Item>)
    requires TableInv(s) && StreamInv(s) && FirstItemError(items).None?
    ensures StreamInvBut(Filled(s, printer, description, appName, dirMade, autoScale, items), s.nextId)
  {
    hide JobOk, FirstItemError, PathsOf, InStep;
  }

  lemma FailedAllAtOnce(s: Service, id: int, job: Job, now: nat)
    requires TableInv(s) && id in s.table
    ensures StreamInvBut(s, id) ==>
              StreamInv(Remove(s.(streams := Post(s.streams, id, StateEvent(job, "DONE", Some("Error"), [], now))), id))
  {
    hide JobOk, InStep, ScanAll;
    if StreamInvBut(s, id) {
      var e := StateEvent(job, "DONE", Some("Error"), [], now);
      OneEvent(s, Remove(s.(streams := Post(s.streams, id, e)), id), id, e);
    }
  }

  lemma PollStreamInv(s: Service, answers: int -> Option<CupsJobState>)
    requires TableInv(s) && StreamInv(s)
    ensures StreamInv(StepPoll(s, answers))
  {
    hide ScanAll, JobOk;
    var s' := StepPoll(s, answers);
    forall id | id in s.streams
      ensures ScanAll(s'.streams[id]) != Broken
      ensures id in s'.table ==> InStep(s'.table[id], ScanAll(s'.streams[id]))
    {
      if id in s.table {
        PollInStep(s.table[id], answers(id), s.clock, s.streams[id]);
      } else {
        assert s.streams[id] + [] == s.streams[id];
      }
    }
  }

  lemma PollInStep(job: Job, answer: Option<CupsJobState>, now: nat, t: seq<Event>)
    requires JobOk(job) && InStep(job, ScanAll(t)) && ScanAll(t) != Broken
    ensures var (job', events) := PollJob(job, answer, now);
            InStep(job', ScanAll(t + events)) && ScanAll(t + events) != Broken
  {
    hide ScanAll, BlockedReasons;
    var events := PollJob(job, answer, now).1;
    if events == [] {
      assert t + [] == t;
    } else {
      assert events == [events[0]];
      ScanAppend(t, events[0]);
    }
  }

  lemma StreamStep(s: Service, op: Op)
    requires TableInv(s) && StreamInv(s)
    ensures StreamInv(Step(s, op).0)
  {
    hide JobOk, InStep, ScanAll, Opened, StepClose, StepCancel, StepAddFile, StepAllAtOnce, StepPoll, Edited;
    match op
    case Advance(_) =>
    case OpenJob(printer, description, appName, dirMade) => OpenedStreamInv(s, printer, description, appName, dirMade);
    case Edit(id, edits) => EditStreamInv(s, id, edits);
    case NewTempFile(id, ext, size, created, reserved) => NewTempFileStreamInv(s, id, ext, size, created, reserved);
    case AddFile(id, path, check, page, total) => AddFileStreamInv(s, id, path, check, page, total);
    case Close(id, maxResolution, w) => CloseStreamInv(s, id, maxResolution, w);
    case Cancel(id, cupsCancels) => CancelStreamInv(s, id, cupsCancels);
    case AllAtOnce(_, _, _, _, _, _, _, _) => AllAtOnceStreamInv(s, op);
    case Poll(answers) => PollStreamInv(s, answers);
    case QueryCapabilities(_) =>
  }

  lemma EditStreamInv(s: Service, id: int, edits: Edits)
    requires StreamInv(s)
    ensures StreamInv(StepEdit(s, id, edits).0)
  {
    hide Edited, ScanAll;
  }

  lemma NewTempFileStreamInv(s: Service, id: int, ext: string, size: int, created: bool, reserved: bool)
    requires StreamInv(s)
    ensures StreamInv(StepNewTempFile(s, id, ext, size, created, reserved).0)
  {
    hide ScanAll;
  }

  lemma {:induction false} StreamRun(s: Service, ops: seq<Op>)
    requires TableInv(s) && StreamInv(s)
    ensures StreamInv(Run(s, ops))
    decreases |ops|
  {
    if ops != [] {
      hide Step, TableInv, StreamInv;
      TableStep(s, ops[0]);
      StreamStep(s, ops[0]);
      StreamRun(Step(s, ops[0]).0, ops[1..]);
    }
  }

  // ------------------------------------------------------ what the monitor means

  /** Positions that hold page starts, in order from 1. */
  ghost predicate PagesUpTo(t: seq<Event>, n: nat) {
    n <= |t| && forall i :: 0 <= i < n ==> t[i].PageStart? && t[i].pageNum == i + 1
  }

  /** What may follow the pages. */
  ghost predicate StatesFrom(t: seq<Event>, n: nat) {
    && (forall i :: n <= i < |t| ==> IsLive(t[i]) || IsDone(t[i]))
    && (n < |t| ==> IsDone(t[n]) || t[n].printerState == "QUEUED")
    && (forall i :: n < i < |t| && IsLive(t[i]) ==> IsLive(t[i - 1]) && t[i - 1].printerState != t[i].printerState)
    && (forall i :: n < i < |t| && IsDone(t[i - 1]) ==> IsDone(t[i]) && t[i].jobStatus == Some("Cancelled"))
  }

  /** Pages 1, 2, ... n; then nothing, or QUEUED and live states without stutter; then DONE; then only cancellations. */
  ghost predicate Shaped(t: seq<Event>, n: nat) {
    PagesUpTo(t, n) && n <= |t| && StatesFrom(t, n)
  }

  lemma {:induction false} ScanMeansShape(t: seq<Event>) returns (n: nat)
    requires ScanAll(t) != Broken
    ensures Shaped(t, n)
    ensures ScanAll(t).Paging? ==> n == |t| == ScanAll(t).pages
    ensures ScanAll(t).Live? ==> n < |t| && IsLive(t[|t| - 1]) && t[|t| - 1].printerState == ScanAll(t).last
    ensures ScanAll(t).Finished? ==> n < |t| && IsDone(t[|t| - 1])
  {
    if t == [] {
      n := 0;
    } else {
      var init, last := t[..|t| - 1], t[|t| - 1];
      n := ScanMeansShape(init);
      hide IsLive, IsDone;
      assert t == init + [last];
      if last.PageStart? {
        ShapeOfPage(init, last, n);
        n := |t|;
      } else {
        LiveIsNotDone(last);
        ShapeOfState(init, last, n);
      }
    }
  }

  lemma LiveIsNotDone(e: Event)
    ensures IsLive(e) ==> !IsDone(e) && !e.PageStart?
    ensures IsDone(e) ==> !e.PageStart?
  {}

  lemma ShapeOfPage(t: seq<Event>, e: Event, n: nat)
    requires Shaped(t, n) && n == |t| && e.PageStart? && e.pageNum == n + 1
    ensures Shaped(t + [e], n + 1)
  {
    hide IsLive, IsDone;
  }

  lemma ShapeOfState(t: seq<Event>, e: Event, n: nat)
    requires Shaped(t, n) && e.StateChange? && (IsLive(e) || IsDone(e))
    requires n == |t| ==> IsDone(e) || e.printerState == "QUEUED"
    requires n < |t| && IsLive(e) ==> IsLive(t[|t| - 1]) && t[|t| - 1].printerState != e.printerState
    requires n < |t| && IsDone(t[|t| - 1]) ==> IsDone(e) && e.jobStatus == Some("Cancelled")
    ensures Shaped(t + [e], n)
  {
    hide IsLive, IsDone;
    var u := t + [e];
    assert forall i :: 0 <= i < |t| ==> u[i] == t[i];
    assert PagesUpTo(u, n);
  }

  /** The stream of a job in the table, by its phase. */
  ghost predicate StreamMatches(job: Job, t: seq<Event>, n: nat) {
    Shaped(t, n) &&
    match job.phase
    case Open => |t| == n == |job.files|
    case Submitted => |t| > n && IsLive(t[|t| - 1]) && job.lastPrinterState == Some(t[|t| - 1].printerState)
    case Done => |t| > n && IsDone(t[|t| - 1])
    case Cancelled => |t| > n && IsDone(t[|t| - 1])
  }

  lemma StreamOfJob(s: Service, id: int)
    requires StreamInv(s) && id in s.streams
    ensures exists n :: Shaped(s.streams[id], n)
    ensures id in s.table ==> exists n :: StreamMatches(s.table[id], s.streams[id], n)
  {
    hide IsLive, IsDone, PagesUpTo, StatesFrom, ScanNext;
    var n := ScanMeansShape(s.streams[id]);
    if id in s.table { assert StreamMatches(s.table[id], s.streams[id], n); }
  }

  /** In every run, the status stream of every job, removed ones included, has this shape and fits the job's phase. */
  lemma StreamShapes(clock: nat, ops: seq<Op>, id: int)
    requires id in Run(InitialService(clock), ops).streams
    ensures var s := Run(InitialService(clock), ops);
            && (exists n :: Shaped(s.streams[id], n))
            && (id in s.table ==> exists n :: StreamMatches(s.table[id], s.streams[id], n))
  {
    InitialTableInv(clock);
    var s0 := InitialService(clock);
    assert StreamInv(s0);
    hide *;
    TableRun(s0, ops);
    StreamRun(s0, ops);
    StreamOfJob(Run(s0, ops), id);
  }
}
