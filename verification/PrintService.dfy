/** The handlers themselves: jobs are objects updated field by field, each handler a step of JobModel. */
module PrintService {
  import opened Prelude
  import opened PrintErrors
  import opened ParamMap
  import opened PrintableArea
  import opened CupsOptions
  import opened CupsSubmit
  import opened EditParams
  import opened SpoolPaths
  import opened StateReasons
  import Model = JobModel
  import JobResize
  import opened JobHistory

  // The records of the state machine, which the objects below stand for.
  type Job = Model.Job
  type Event = Model.Event
  type Service = Model.Service

  lemma {:induction false} FirstItemErrorSplit(a: seq<Model.Item>, b: seq<Model.Item>)
    ensures Model.FirstItemError(a + b)
            == if Model.FirstItemError(a).Some? then Model.FirstItemError(a) else Model.FirstItemError(b)
  {
    if a == [] {
      assert a + b == b;
    } else {
      assert (a + b)[1..] == a[1..] + b;
      FirstItemErrorSplit(a[1..], b);
    }
  }

  lemma {:induction false} PathsOfSplit(a: seq<Model.Item>, b: seq<Model.Item>)
    requires Model.FirstItemError(a).None? && Model.FirstItemError(b).None?
    ensures Model.FirstItemError(a + b).None?
    ensures Model.PathsOf(a + b) == Model.PathsOf(a) + Model.PathsOf(b)
  {
    FirstItemErrorSplit(a, b);
    if a == [] {
      assert a + b == b;
    } else {
      assert (a + b)[1..] == a[1..] + b;
      PathsOfSplit(a[1..], b);
    }
  }

  lemma Overwrite<T>(m: map<int, T>, k: int, a: T, b: T)
    ensures m[k := a] - {k} == m[k := b] - {k}
  {}

  lemma FreedSame(a: Job, b: Job)
    requires a.tempFiles == b.tempFiles && a.tempDir == b.tempDir
    ensures Model.Freed(a) == Model.Freed(b)
  {}

  lemma UpdateTwice<T>(m: map<int, T>, k: int, a: T, b: T)
    ensures m[k := a][k := b] == m[k := b]
  {}

  class PrintJob {
    const jobId: nat
    const printerId: string
    const description: string
    const appName: string
    const tempDir: Option<string>
    const queuedAt: nat
    var cupsJobId: int
    var params: PrintParams
    var files: seq<string>
    var tempFiles: seq<string>
    var phase: Model.Phase
    var currentPage: int
    var totalPages: int
    var lastPrinterState: Option<string>
    var startedAt: nat

    constructor (id: nat, printer: string, description: string, appName: string, dirMade: bool, now: nat)
      ensures jobId == id && files == [] && View() == Model.FreshJob(id, printer, description, appName, dirMade, now)
    {
      this.jobId, this.printerId, this.description, this.appName := id, printer, description, appName;
      this.tempDir := if dirMade then Some(TempDir(Model.SPOOL_ROOT, id)) else None;
      queuedAt, startedAt, cupsJobId := now, 0, -1;
      params, files, tempFiles := InitialParams(), [], [];
      phase, currentPage, totalPages, lastPrinterState := Model.Open, 0, -1, None;
    }

    ghost function View(): Job
      reads this
    {
      Model.Job(jobId, cupsJobId, printerId, description, appName, params, files, tempFiles, tempDir,
                phase, currentPage, totalPages, lastPrinterState, queuedAt, startedAt)
    }

    function Phase(): (p: Model.Phase)
      reads `phase
      ensures p == View().phase
    {
      phase
    }

    /** Takes over the arguments of editPrintParams one after the other. */
    method EditParams(e: Edits) returns (err: Option<int>)
      modifies `params
      ensures params == Edited(old(params), e).0
      ensures err == Edited(old(params), e).1
    {
      hide FirstRefused;
      err := TakeKeywords(e);
      if err.Some? { return; }
      TakeFlags(e);
      TakeInsets(e);
      if params.borderless && params.insetsSet { return Some(INSETS_WITH_BORDERLESS); }
    }

    method TakeFlags(e: Edits)
      modifies `params
      ensures params == OverlayFlags(old(params), e)
    {
      if e.borderless.Some? { params := params.(borderless := e.borderless.value); }
      if e.autoRotate.Some? { params := params.(autoRotate := e.autoRotate.value); }
      if e.autoScale.Some? { params := params.(autoScale := e.autoScale.value); }
    }

    /** Any inset given marks the insets as set. */
    method TakeInsets(e: Edits)
      modifies `params
      ensures params == OverlayInsets(old(params), e).(insetsSet := old(params).insetsSet || TouchesInsets(e))
    {
      var p, touched := WithInsets(params, e);
      params := p;
      if touched { params := params.(insetsSet := true); }
    }

    /** The keyword fields and the copies; stops at the first that is refused. */
    method TakeKeywords(e: Edits) returns (err: Option<int>)
      modifies `params
      ensures var n := FirstRefused(e);
              && params == OverlayFields(old(params), e, n)
              && err == if n < 8 then Some(FIELD_ERRORS[n]) else None
    {
      hide FieldRefused, OverlayFields, Or;
      FieldByField(params, e);
      var ok := Admits(e, 0);
      if !ok { return Some(BAD_MEDIA_SIZE); }
      params := params.(mediaSize := Or(e.mediaSize, params.mediaSize));
      ok := Admits(e, 1);
      if !ok { return Some(BAD_MEDIA_TYPE); }
      params := params.(mediaType := Or(e.mediaType, params.mediaType));
      ok := Admits(e, 2);
      if !ok { return Some(BAD_PRINT_QUALITY); }
      params := params.(printQuality := Or(e.printQuality, params.printQuality));
      ok := Admits(e, 3);
      if !ok { return Some(BAD_DUPLEX); }
      params := params.(duplex := Or(e.duplex, params.duplex));
      ok := Admits(e, 4);
      if !ok { return Some(BAD_DRYTIME); }
      params := params.(dryTime := Or(e.dryTime, params.dryTime));
      ok := Admits(e, 5);
      if !ok { return Some(BAD_COLOR); }
      params := params.(color := Or(e.color, params.color));
      ok := Admits(e, 6);
      if !ok { return Some(BAD_TRAY); }
      params := params.(tray := Or(e.tray, params.tray));
      ok := Admits(e, 7);
      if !ok { return Some(BAD_PARAM_SYNTAX); }
      params := params.(numCopies := Or(e.numCopies, params.numCopies));
      return None;
    }

    /** job_manager_new_temp_file. */
    method NewTempFile(extension: string, size: int, created: bool, reserved: bool) returns (path: Option<string>, err: int)
      modifies this
      ensures path.None? ==> View() == old(View())
      ensures path.Some? ==>
                && tempDir.Some? && path == Some(TempPath(tempDir.value, |old(tempFiles)| + 1, extension))
                && View() == old(View()).(tempFiles := old(tempFiles) + [path.value])
      ensures path.Some? <==> extension != "" && tempDir.Some? && created && (size > 0 ==> reserved)
      ensures path.None? ==>
                err == if extension == "" then EMPTY_FILE_EXTENSION
                       else if tempDir.None? || !created then NO_FILECACHE_PATH
                       else JOB_TEMP_FILE_NO_ROOM
    {
      if extension == "" { return None, EMPTY_FILE_EXTENSION; }
      if tempDir.None? { return None, NO_FILECACHE_PATH; }
      var name := TempPath(tempDir.value, |tempFiles| + 1, extension);
      if !created { return None, NO_FILECACHE_PATH; }
      if size > 0 {
        if !reserved { return None, JOB_TEMP_FILE_NO_ROOM; }
      }
      tempFiles := tempFiles + [name];
      return Some(name), 0;
    }

    /** The page numbers of addFile, which must arrive in order, and the file. */
    method AddPage(path: string, page: Option<int>, total: Option<int>) returns (err: Option<int>)
      modifies `files, `currentPage, `totalPages
      ensures var job := old(View());
              && err == (if page.Some? && page.value != |job.files| + 1 then Some(OUT_OF_ORDER_CURRENTPAGE) else None)
              && View() == if err.Some? then job
                           else job.(currentPage := Or(page, job.currentPage), totalPages := Or(total, job.totalPages),
                                     files := job.files + [path])
    {
      if page.Some? {
        if page.value != |files| + 1 { return Some(OUT_OF_ORDER_CURRENTPAGE); }
        currentPage := page.value;
      }
      if total.Some? { totalPages := total.value; }
      files := files + [path];
      return None;
    }

    /** The part of allAtOnce between opening and submitting; stops at the first bad element. */
    method Fill(autoScale: Option<bool>, items: seq<Model.Item>) returns (err: Option<int>)
      requires files == []
      modifies `params, `files, `totalPages
      ensures err == Model.FirstItemError(items)
      ensures View().tempFiles == old(View()).tempFiles && View().tempDir == old(View()).tempDir
      ensures var job := old(View());
              err.None? ==> View() == job.(params := job.params.(autoScale := Or(autoScale, job.params.autoScale)),
                                           files := Model.PathsOf(items), totalPages := |items|)
    {
      if autoScale.Some? { params := params.(autoScale := autoScale.value); }
      for i := 0 to |items|
        modifies `files
        invariant Model.FirstItemError(items[..i]).None? && files == Model.PathsOf(items[..i])
      {
        FirstItemErrorSplit(items[..i], items[i..]);
        FirstItemErrorSplit(items[..i], [items[i]]);
        assert items[..i] + items[i..] == items && items[..i] + [items[i]] == items[..i + 1];
        if items[i].NotAString? { return Some(BAD_PARAM_SYNTAX); }
        err := Model.CheckError(items[i].check);
        if err.Some? { return; }
        PathsOfSplit(items[..i], [items[i]]);
        files := files + [items[i].path];
      }
      assert items[..|items|] == items;
      totalPages := |items|;
      return None;
    }

    /** CUPS took the job. */
    method Accepted(cupsId: int)
      modifies `cupsJobId, `phase, `totalPages
      ensures var job := old(View());
              View() == job.(cupsJobId := cupsId, phase := Model.Submitted,
                             totalPages := if job.totalPages < 0 then |job.files| else job.totalPages)
    {
      cupsJobId := cupsId;
      phase := Model.Submitted;
      if totalPages < 0 { totalPages := |files|; }
    }

    method EnterPhase(p: Model.Phase)
      modifies `phase
      ensures View() == old(View()).(phase := p)
    {
      phase := p;
    }

    method Reported(printerState: string)
      modifies `lastPrinterState
      ensures View() == old(View()).(lastPrinterState := Some(printerState))
    {
      lastPrinterState := Some(printerState);
    }

    /** job_manager_resize_temp_file: -620 for a file that is not ours, which is left alone; -616 if truncating it fails. */
    method ResizeTempFile(path: string, truncates: bool) returns (ok: bool, err: int, tried: bool)
      ensures tried <==> path in View().tempFiles
      ensures ok <==> tried && truncates
      ensures !ok ==> err == if tried then TEMP_FILE_TOO_LARGE else FILE_NOT_IN_ANY_JOB
    {
      var ours := false;
      for i := 0 to |tempFiles|
        invariant !ours && path !in tempFiles[..i]
      {
        if tempFiles[i] == path { ours := true; break; }
      }
      if !ours { return false, FILE_NOT_IN_ANY_JOB, false; }
      if !truncates { return false, TEMP_FILE_TOO_LARGE, true; }
      return true, 0, true;
    }
  }

  class PrintService {
    var jobs: map<int, PrintJob>
    var nextId: nat
    var polling: bool                              // the timer is armed
    var clock: nat
    const cups: Cups
    ghost var streams: map<int, seq<Event>>        // what getStatus subscribers were sent
    ghost var submissions: map<int, Model.Submission>
    ghost var handed: seq<Model.Handed>
    ghost var cleanups: seq<Model.Cleanup>         // files and directories removed with jobs

    /** Every job sits under its own id, so no two ids share an object. */
    ghost predicate Valid()
      reads `jobs, `streams, jobs.Values
    {
      && (forall id :: id in jobs ==> jobs[id].jobId == id)
      && (forall id :: id in jobs ==> id in streams)
    }

    ghost function Table(): map<int, Job>
      reads `jobs, jobs.Values
    {
      map id | id in jobs :: jobs[id].View()
    }

    ghost function View(): Service
      reads this, jobs.Values, cups
    {
      Model.Service(Table(), nextId, polling, clock, streams, cups.trace, submissions, handed, cleanups)
    }

    constructor (now: nat)
      ensures Valid() && fresh(cups) && View() == Model.InitialService(now)
    {
      jobs, nextId, polling, clock := map[], 1, false, now;
      cups := new Cups();
      streams, submissions, handed, cleanups := map[], map[], [], [];
    }

    method Advance(elapsed: nat)
      requires Valid()
      modifies `clock
      ensures Valid() && View() == old(View()).(clock := old(clock) + elapsed)
    {
      clock := clock + elapsed;
    }

    method Post(id: int, e: Event)
      modifies `streams
      ensures streams == Model.Post(old(streams), id, e)
    {
      streams := Model.Post(streams, id, e);
    }

    /** post_job_state. */
    method PostJobState(job: PrintJob, printerState: string, jobStatus: Option<string>, blocked: seq<string>)
      modifies `streams
      ensures streams == Model.Post(old(streams), job.jobId,
                Model.StateEvent(job.View(), printerState, jobStatus, blocked, clock))
    {
      var detail;
      if printerState == "DONE" {
        var active := if job.startedAt != 0 then (clock - job.startedAt) / Model.USEC_PER_SEC else 0;
        detail := Model.Times(active, (clock - job.queuedAt) / Model.USEC_PER_SEC);
      } else {
        detail := Model.Progress(job.currentPage, job.totalPages, blocked);
      }
      Post(job.jobId, Model.StateChange(printerState, jobStatus, detail));
    }

    /** job_manager_open. */
    method Open(printer: string, description: string, appName: string, dirMade: bool) returns (job: PrintJob)
      requires Valid()
      modifies `jobs, `nextId, `streams
      ensures Valid() && fresh(job) && job.jobId == old(nextId) && jobs == old(jobs)[old(nextId) := job]
      ensures View() == Model.Opened(old(View()), printer, description, appName, dirMade)
      ensures job.View() == Model.FreshJob(old(nextId), printer, description, appName, dirMade, clock)
      ensures job.files == []
    {
      hide Model.FreshJob, Model.StreamOf, PrintJob.View;
      job := new PrintJob(nextId, printer, description, appName, dirMade, clock);
      streams := streams[nextId := Model.StreamOf(streams, nextId)];
      jobs := jobs[nextId := job];
      nextId := nextId + 1;
      assert Table() == old(Table())[old(nextId) := job.View()];
    }

    method OpenJob(printer: string, description: string, appName: string, dirMade: bool) returns (reply: Model.Reply)
      requires Valid()
      modifies `jobs, `nextId, `streams
      ensures Valid() && fresh(jobs.Values - old(jobs.Values)) && reply == Model.NewJob(old(nextId))
      ensures View() == Model.Opened(old(View()), printer, description, appName, dirMade)
    {
      var job := Open(printer, description, appName, dirMade);
      reply := Model.NewJob(job.jobId);
    }

    /** One job moved on. */
    twostate lemma OneJob(id: int)
      requires Valid() && old(jobs) == jobs && id in jobs
      requires forall k :: k in jobs && k != id ==> unchanged(jobs[k])
      ensures Table() == old(Table())[id := jobs[id].View()]
      ensures jobs[id].View() == old(jobs[id].View()) ==> Table() == old(Table())
    {
      assert Table().Keys == old(Table()).Keys;
      forall k | k in jobs && k != id
        ensures Table()[k] == old(Table())[k]
      {}
    }

    method Edit(id: int, e: Edits) returns (reply: Model.Reply)
      requires Valid()
      modifies jobs.Values
      ensures Valid() && (View(), reply) == Model.StepEdit(old(View()), id, e)
    {
      hide Edited;
      if id !in jobs { return Model.Failure(UNKNOWN_JOB_ID); }
      var job := jobs[id];
      if job.phase != Model.Open { return Model.Failure(JOB_ALREADY_CLOSED); }
      var err := job.EditParams(e);
      OneJob(id);
      reply := if err.Some? then Model.Failure(err.value) else Model.Success;
    }

    method NewTempFile(id: int, extension: string, size: int, created: bool, reserved: bool) returns (reply: Model.Reply)
      requires Valid()
      modifies jobs.Values, `handed
      ensures Valid() && (View(), reply) == Model.StepNewTempFile(old(View()), id, extension, size, created, reserved)
    {
      hide TempPath;
      if id !in jobs { return Model.Failure(UNKNOWN_JOB_ID); }
      var job := jobs[id];
      var path, err := job.NewTempFile(extension, size, created, reserved);
      OneJob(id);
      if path.None? { return Model.Failure(err); }
      handed := handed + [Model.Handed(job.jobId, |job.tempFiles|, path.value)];
      return Model.NewPath(path.value);
    }

    /** post_page_info. */
    method PostPageStart(job: PrintJob)
      modifies `streams
      ensures streams == Model.Post(old(streams), job.jobId,
                Model.PageStart(|job.View().files|, job.View().totalPages))
    {
      Post(job.jobId, Model.PageStart(|job.files|, job.totalPages));
    }

    method AddFile(id: int, path: string, check: Model.FileCheck, page: Option<int>, total: Option<int>)
      returns (reply: Model.Reply)
      requires Valid()
      modifies jobs.Values, `streams
      ensures Valid() && (View(), reply) == Model.StepAddFile(old(View()), id, path, check, page, total)
    {
      hide PrintJob.View, Model.StreamOf;
      if id !in jobs { return Model.Failure(UNKNOWN_JOB_ID); }
      var job := jobs[id];
      if job.Phase() != Model.Open { return Model.Failure(JOB_ALREADY_CLOSED); }
      var err := Model.CheckError(check);
      if err.Some? { return Model.Failure(err.value); }
      err := job.AddPage(path, page, total);
      OneJob(id);
      if err.Some? { return Model.Failure(err.value); }
      PostPageStart(job);
      return Model.Success;
    }

    /** submit_job. */
    method SubmitJob(job: PrintJob, maxResolution: Option<int>, w: World) returns (err: Option<int>)
      requires Valid() && job.jobId in jobs && jobs[job.jobId] == job
      modifies job, cups, `streams, `submissions, `polling
      ensures Valid()
      ensures (View(), err) == Model.SubmitJob(old(View()), job.jobId, maxResolution, w)
    {
      hide BuildParams, SubmitCalls, Model.Queued;
      if job.files == [] { return Some(NO_FILES_TO_PRINT); }
      cups.Log(QueryCaps(job.printerId));
      var maxRes := 0;
      if maxResolution.Some? { maxRes := maxResolution.value; }
      var params := FillParams(job.params, maxRes);
      ghost var sub := Model.SubmissionOf(job.View(), maxResolution, w);
      submissions := submissions[job.jobId := sub];
      var r := cups.Submit(job.printerId, Some(job.description), job.files, params, w);
      assert View() == Model.SubmissionOnRecord(old(View()), job.jobId, sub);
      if r.Refused? { return Some(r.err); }
      Queue(job, r.cupsId);
      return None;
    }

    /** CUPS took the job: the client is told, and the timer is armed unless it already is. */
    method Queue(job: PrintJob, cupsId: int)
      requires Valid() && job.jobId in jobs && jobs[job.jobId] == job
      modifies job, `streams, `polling
      ensures Valid() && View() == Model.Queued(old(View()), job.jobId, cupsId)
    {
      hide Model.StateEvent, Model.StreamOf, PrintJob.View;
      job.Accepted(cupsId);
      ghost var accepted := job.View();
      PostJobState(job, "QUEUED", None, []);
      job.Reported("QUEUED");
      OneJob(job.jobId);
      assert job.View() == accepted.(lastPrinterState := Some("QUEUED"));
      if !polling { polling := true; }
    }

    /** The job ends with a DONE event. */
    method Finish(job: PrintJob, phase: Model.Phase, status: string)
      requires Valid() && job.jobId in jobs && jobs[job.jobId] == job
      modifies job`phase, `streams
      ensures Valid() && View() == Model.Finish(old(View()), job.jobId, phase, status)
    {
      hide Model.StreamOf, PrintJob.View;
      ghost var before := job.View();
      job.EnterPhase(phase);
      assert Model.StateEvent(job.View(), "DONE", Some(status), [], clock)
          == Model.StateEvent(before, "DONE", Some(status), [], clock);
      hide Model.StateEvent;
      PostJobState(job, "DONE", Some(status), []);
      OneJob(job.jobId);
    }

    method Close(id: int, maxResolution: Option<int>, w: World) returns (reply: Model.Reply)
      requires Valid()
      modifies jobs.Values, cups, `streams, `submissions, `polling
      ensures Valid() && (View(), reply) == Model.StepClose(old(View()), id, maxResolution, w)
    {
      hide Model.SubmitJob, Model.Finish;
      if id !in jobs { return Model.Failure(UNKNOWN_JOB_ID); }
      var job := jobs[id];
      if job.phase != Model.Open { return Model.Failure(JOB_ALREADY_CLOSED); }
      if job.files == [] {
        Finish(job, Model.Done, "Success");
        return Model.Success;
      }
      var err := SubmitJob(job, maxResolution, w);
      if err.Some? {
        Finish(job, Model.Done, "Error");
        return Model.Failure(err.value);
      }
      return Model.Success;
    }

    method Cancel(id: int, cupsCancels: bool) returns (reply: Model.Reply)
      requires Valid()
      modifies jobs.Values, cups, `streams
      ensures Valid() && (View(), reply) == Model.StepCancel(old(View()), id, cupsCancels)
    {
      hide Model.Finish;
      if id !in jobs { return Model.Failure(UNKNOWN_JOB_ID); }
      var job := jobs[id];
      if job.phase == Model.Submitted && job.cupsJobId > 0 {
        cups.Log(CancelJob(job.printerId, job.cupsJobId));
        assert Table() == old(Table());
        if !cupsCancels { return Model.Failure(JOB_CANCEL_FAILED); }
      }
      Finish(job, Model.Cancelled, "Cancelled");
      return Model.Success;
    }

    /** job_manager_remove: an id that is not in the table is no error. */
    method Remove(id: int)
      requires Valid()
      modifies `jobs, `cleanups
      ensures Valid() && jobs.Values <= old(jobs.Values) && View() == Model.Remove(old(View()), id)
    {
      hide Model.Freed, PrintJob.View;
      if id in jobs {
        assert Table()[id] == jobs[id].View();
        FreeJob(jobs[id]);
      }
      jobs := jobs - {id};
      assert Table() == old(Table()) - {id};
    }

    /** job_free: unlinks the job's scratch files one by one, then removes its directory. */
    method FreeJob(job: PrintJob)
      modifies `cleanups
      ensures cleanups == old(cleanups) + Model.Freed(job.View())
    {
      ghost var all := Model.Freed(job.View());
      for i := 0 to |job.tempFiles|
        invariant cleanups == old(cleanups) + all[..i]
      {
        cleanups := cleanups + [Model.Unlinked(job.tempFiles[i])];
        assert all[..i + 1] == all[..i] + [Model.Unlinked(job.tempFiles[i])];
      }
      if job.tempDir.Some? {
        cleanups := cleanups + [Model.DirRemoved(job.tempDir.value)];
        assert all == all[..|job.tempFiles|] + [Model.DirRemoved(job.tempDir.value)];
      }
      assert all[..|all|] == all;
    }

    method AllAtOnce(printer: string, description: string, appName: string, dirMade: bool, autoScale: Option<bool>,
                     items: seq<Model.Item>, maxResolution: Option<int>, w: World) returns (reply: Model.Reply)
      requires Valid()
      modifies this, cups
      ensures Valid() && fresh(jobs.Values - old(jobs.Values))
      ensures (View(), reply) == Model.StepAllAtOnce(old(View()), printer, description, appName, dirMade,
                                                     autoScale, items, maxResolution, w)
    {
      hide Model.FirstItemError, Model.SubmitFilled, Model.Filled, Model.Opened, Model.Remove;
      if items == [] { return Model.Failure(NO_FILES_TO_PRINT); }
      var job, err := OpenFilled(printer, description, appName, dirMade, autoScale, items);
      if err.Some? { return Model.Failure(err.value); }
      reply := SubmitFilled(job, maxResolution, w);
    }

    /** Opens a job and gives it every path; a bad path removes it again. */
    method OpenFilled(printer: string, description: string, appName: string, dirMade: bool, autoScale: Option<bool>,
                      items: seq<Model.Item>) returns (job: PrintJob, err: Option<int>)
      requires Valid()
      modifies `jobs, `nextId, `streams, `cleanups
      ensures Valid() && fresh(job) && fresh(jobs.Values - old(jobs.Values))
      ensures job.jobId == old(nextId) && err == Model.FirstItemError(items)
      ensures err.None? ==> job.jobId in jobs && jobs[job.jobId] == job
      ensures View() == if err.None? then
                          Model.Filled(old(View()), printer, description, appName, dirMade, autoScale, items)
                        else
                          Model.Remove(Model.Opened(old(View()), printer, description, appName, dirMade), old(nextId))
    {
      hide Model.FirstItemError, Model.PathsOf, Model.FreshJob, Model.StreamOf, PrintJob.View;
      job := Open(printer, description, appName, dirMade);
      err := job.Fill(autoScale, items);
      assert Table() == old(Table())[old(nextId) := job.View()];
      if err.Some? {
        FreedSame(job.View(), Model.FreshJob(old(nextId), printer, description, appName, dirMade, clock));
        Overwrite(old(Table()), old(nextId), job.View(),
                  Model.FreshJob(old(nextId), printer, description, appName, dirMade, clock));
        Remove(job.jobId);
      } else {
        UpdateTwice(old(Table()), old(nextId),
                    Model.FreshJob(old(nextId), printer, description, appName, dirMade, clock), job.View());
      }
    }

    /** A job CUPS refuses is reported and leaves the table again. */
    method SubmitFilled(job: PrintJob, maxResolution: Option<int>, w: World) returns (reply: Model.Reply)
      requires Valid() && job.jobId in jobs && jobs[job.jobId] == job
      modifies job, cups, `jobs, `streams, `submissions, `polling, `cleanups
      ensures Valid() && jobs.Values <= old(jobs.Values)
      ensures (View(), reply) == Model.SubmitFilled(old(View()), job.jobId, maxResolution, w)
    {
      hide Model.StateEvent, Model.SubmitJob, Model.StreamOf, PrintJob.View;
      Model.RefusedKeepsTable(View(), job.jobId, maxResolution, w);
      var err := SubmitJob(job, maxResolution, w);
      if err.None? { return Model.NewJob(job.jobId); }
      assert Table()[job.jobId] == job.View();
      PostJobState(job, "DONE", Some("Error"), []);
      Remove(job.jobId);
      return Model.Failure(err.value);
    }

    /** The body of the loop over the jobs in poll_jobs. */
    method PollOne(job: PrintJob, answer: Option<Model.CupsJobState>)
      modifies job, `streams
      ensures var (job', events) := Model.PollJob(old(job.View()), answer, clock);
              && job.View() == job'
              && (events == [] ==> streams == old(streams))
              && (events != [] ==> |events| == 1 && streams == Model.Post(old(streams), job.jobId, events[0]))
    {
      hide Model.StreamOf, BlockedReasons;
      if job.phase != Model.Submitted { return; }
      if answer.None? {
        job.phase := Model.Done;
        PostJobState(job, "DONE", Some("Success"), []);
        return;
      }
      var state, status := JobStateToWebos(answer.value.ippState);
      var blocked := BlockedList(answer.value.reasons, answer.value.isToner);
      if job.lastPrinterState != Some(state) {
        if state == "RUNNING" && job.startedAt == 0 { job.startedAt := clock; }
        PostJobState(job, state, status, blocked);
        job.lastPrinterState := Some(state);
        if state == "DONE" { job.phase := Model.Done; }
      }
    }

    /** One visit, as a step of the whole service. */
    method Visit(id: int, answer: Option<Model.CupsJobState>) returns (active: bool)
      requires Valid() && id in jobs
      modifies jobs[id], `streams
      ensures Valid() && View() == PolledOne(old(View()), id, answer)
      ensures active == (old(View()).table[id].phase == Model.Submitted)
    {
      hide Model.PollJob, PrintJob.View;
      active := jobs[id].Phase() == Model.Submitted;
      ghost var events := Model.PollJob(jobs[id].View(), answer, clock).1;
      PollOne(jobs[id], answer);
      OneJob(id);
      if events == [] {
        assert streams[id] + [] == streams[id] && streams[id := streams[id]] == streams;
      } else {
        assert events == [events[0]];
      }
    }

    /** The i-th visit of a tick that began in state s. */
    method VisitNext(order: seq<int>, i: nat, answers: int -> Option<Model.CupsJobState>, ghost s: Service)
      returns (active: bool)
      requires Valid() && Distinct(order) && i < |order| && order[i] in jobs && View() == Polled(s, Seen(order, i), answers)
      modifies jobs[order[i]], `streams
      ensures Valid() && View() == Polled(s, Seen(order, i + 1), answers)
      ensures SomeActive(s, Seen(order, i + 1)) <==> SomeActive(s, Seen(order, i)) || active
    {
      hide PolledOne, Seen, SomeActive;
      var id := order[i];
      assert id in View().table && id in View().streams;
      OneMoreSeen(order, i);
      PolledOneMore(s, Seen(order, i), id, answers);
      SomeActiveOneMore(s, Seen(order, i), id);
      active := Visit(id, answers(id));
    }

    /** poll_jobs, visiting the table in any order. */
    method PollJobs(order: seq<int>, answers: int -> Option<Model.CupsJobState>)
      requires Valid() && Distinct(order) && forall id :: id in order <==> id in jobs
      modifies jobs.Values, `streams, `polling
      ensures Valid() && View() == Model.StepPoll(old(View()), answers)
    {
      hide Model.PollJob, PrintJob.View, Polled;
      var anyActive := VisitAll(order, answers);
      PolledAll(old(View()), answers);
      if !anyActive { polling := false; }
    }

    /** The loop over the jobs. */
    method VisitAll(order: seq<int>, answers: int -> Option<Model.CupsJobState>) returns (anyActive: bool)
      requires Valid() && Distinct(order) && forall id :: id in order <==> id in jobs
      modifies jobs.Values, `streams
      ensures Valid() && View() == Polled(old(View()), old(View()).table.Keys, answers)
      ensures anyActive == Model.AnySubmitted(old(View()).table)
    {
      hide Model.PollJob, PrintJob.View, Polled;
      ghost var s := View();
      PolledNone(s, answers);
      EverySeen(order, s.table.Keys);
      assert forall id :: id in order ==> id in s.table;
      SomeActiveAll(s);
      hide View, Valid, Seen, SomeActive, Model.AnySubmitted;
      anyActive := false;
      for i := 0 to |order|
        invariant Valid() && jobs.Keys == s.table.Keys && View() == Polled(s, Seen(order, i), answers)
        invariant anyActive <==> SomeActive(s, Seen(order, i))
      {
        var active := VisitNext(order, i, answers, s);
        if active { anyActive := true; }
      }
    }

    /** resizeTempFile, visiting the table in any order; `tried` are the jobs whose file it truncated or tried to. */
    method ResizeTempFile(order: seq<int>, path: string, truncates: int -> bool)
      returns (reply: Model.Reply, tried: seq<int>)
      requires Valid() && forall id :: id in order ==> id in jobs
      ensures reply == JobResize.Visit(View().table, order, path, truncates, FILE_NOT_IN_ANY_JOB).1
      ensures tried == JobResize.Visit(View().table, order, path, truncates, FILE_NOT_IN_ANY_JOB).0
    {
      ghost var table := Table();
      ghost var all := JobResize.Visit(table, order, path, truncates, FILE_NOT_IN_ANY_JOB);
      assert order[0..] == order && order[|order|..] == [];
      assert forall err :: JobResize.Visit(table, [], path, truncates, err) == ([], Model.Failure(err));
      hide PrintJob.View, JobResize.Visit;
      var err := FILE_NOT_IN_ANY_JOB;
      tried := [];
      for i := 0 to |order|
        invariant tried + JobResize.Visit(table, order[i..], path, truncates, err).0 == all.0
        invariant JobResize.Visit(table, order[i..], path, truncates, err).1 == all.1
      {
        var id := order[i];
        assert table[id] == jobs[id].View();
        JobResize.VisitOne(table, order, path, truncates, err, i);
        var ok, e, touched := jobs[id].ResizeTempFile(path, truncates(id));
        if touched { tried := tried + [id]; }
        if ok { return Model.Success, tried; }
        err := e;
      }
      assert tried + [] == tried;
      return Model.Failure(err), tried;
    }

    /** getAreaForInsets: the probe is a copy, so the job keeps its parameters. */
    method GetAreaForInsets(id: int, e: Edits) returns (r: AreaResult)
      requires Valid()
      ensures r == if id !in View().table then NoArea(UNKNOWN_JOB_ID)
                   else AreaOf(View().table[id].params.mediaSize, OverlayInsets(View().table[id].params, e), 300)
    {
      hide AreaOf;
      if id !in jobs { return NoArea(UNKNOWN_JOB_ID); }
      var probe, _ := WithInsets(jobs[id].params, e);
      r := ComputeArea(probe.mediaSize, probe, 300);
    }

    /** getFinalParamsAndArea, at the best resolution the printer advertises. */
    method GetFinalArea(id: int, maxResolution: Option<int>) returns (r: AreaResult)
      requires Valid()
      modifies cups
      ensures Valid()
      ensures var s := old(View());
              && r == (if id !in s.table then NoArea(UNKNOWN_JOB_ID)
                       else AreaOf(s.table[id].params.mediaSize, s.table[id].params, Or(maxResolution, 300)))
              && View() == if id !in s.table then s
                           else Model.Step(s, Model.QueryCapabilities(s.table[id].printerId)).0
    {
      hide AreaOf;
      if id !in jobs { return NoArea(UNKNOWN_JOB_ID); }
      AreaAtDefault(jobs[id].params.mediaSize, jobs[id].params, Or(maxResolution, 300));
      cups.Log(QueryCaps(jobs[id].printerId));
      assert Table() == old(Table());
      var dpi := 300;
      if maxResolution.Some? && maxResolution.value > 0 { dpi := maxResolution.value; }
      r := ComputeArea(jobs[id].params.mediaSize, jobs[id].params, dpi);
    }

    /** getPrinterCapabilities, as far as CUPS sees it. */
    method GetCapabilities(printer: string)
      requires Valid()
      modifies cups
      ensures Valid() && View() == old(View()).(cups := old(View()).cups + [QueryCaps(printer)])
    {
      cups.Log(QueryCaps(printer));
      assert Table() == old(Table());
    }

    /** The bus dispatch of everything that changes the service. */
    method Handle(op: Model.Op) returns (reply: Model.Reply)
      requires Valid()
      modifies this, jobs.Values, cups
      ensures Valid() && fresh(jobs.Values - old(jobs.Values))
      ensures (View(), reply) == Model.Step(old(View()), op)
    {
      hide Model.Opened, Model.StepEdit, Model.StepNewTempFile, Model.StepAddFile, Model.StepClose, Model.StepCancel,
        Model.StepAllAtOnce, Model.StepPoll, PrintJob.View, Valid;
      match op
      case Advance(elapsed) =>
        Advance(elapsed);
        reply := Model.Success;
      case OpenJob(printer, description, appName, dirMade) =>
        reply := OpenJob(printer, description, appName, dirMade);
      case Edit(id, edits) =>
        reply := Edit(id, edits);
      case NewTempFile(id, extension, size, created, reserved) =>
        reply := NewTempFile(id, extension, size, created, reserved);
      case AddFile(id, path, check, page, total) =>
        reply := AddFile(id, path, check, page, total);
      case Close(id, maxResolution, w) =>
        reply := Close(id, maxResolution, w);
      case Cancel(id, cupsCancels) =>
        reply := Cancel(id, cupsCancels);
      case AllAtOnce(printer, description, appName, dirMade, autoScale, items, maxResolution, w) =>
        reply := AllAtOnce(printer, description, appName, dirMade, autoScale, items, maxResolution, w);
      case Poll(answers) =>
        var order := JobIds();
        PollJobs(order, answers);
        reply := Model.Success;
      case QueryCapabilities(printer) =>
        GetCapabilities(printer);
        reply := Model.Success;
    }

    /** job_manager_list: the ids in whatever order the hash table yields them. */
    method JobIds() returns (order: seq<int>)
      ensures Distinct(order) && forall id :: id in order <==> id in jobs
    {
      order := [];
      var left := jobs.Keys;
      while left != {}
        invariant Distinct(order) && left <= jobs.Keys
        invariant forall id :: id in order <==> id in jobs && id !in left
        decreases |left|
      {
        var id := SomeElement(left);
        order := order + [id];
        left := left - {id};
      }
    }

    /** One call or timer event; the calls that only ask leave the service as it was, but for a capability query. */
    method Dispatch(c: BusCall)
      requires Valid()
      modifies this, jobs.Values, cups
      ensures Valid() && fresh(jobs.Values - old(jobs.Values))
      ensures View() == Model.Run(old(View()), OpsOfOne(old(View()), c))
    {
      RunFew(View(), c);
      hide View, Valid, Model.Run, OpsOfOne;
      match c
      case Change(op) =>
        var _ := Handle(op);
      case Resize(path, truncates) =>
        var order := JobIds();
        var _, _ := ResizeTempFile(order, path, truncates);
      case WhatIf(id, insets) =>
        var _ := GetAreaForInsets(id, insets);
      case FinalArea(id, maxResolution) =>
        var _ := GetFinalArea(id, maxResolution);
    }

    /** The main loop: what the objects go through is a run of the state machine. */
    method Serve(calls: seq<BusCall>)
      requires Valid()
      modifies this, jobs.Values, cups
      ensures Valid() && View() == Model.Run(old(View()), OpsOf(old(View()), calls))
    {
      hide View, Valid, OpsOfOne;
      for i := 0 to |calls|
        invariant Valid() && fresh(jobs.Values - old(jobs.Values))
        invariant Model.Run(View(), OpsOf(View(), calls[i..])) == Model.Run(old(View()), OpsOf(old(View()), calls))
      {
        assert calls[i..][0] == calls[i] && calls[i..][1..] == calls[i + 1..];
        ghost var s := View();
        Dispatch(calls[i]);
        RunConcat(s, OpsOfOne(s, calls[i]), OpsOf(View(), calls[i + 1..]));
      }
    }
  }

  // ------------------------------------------------------------------- calls and steps

  datatype BusCall =
    | Change(op: Model.Op)
    | Resize(path: string, truncates: int -> bool)
    | WhatIf(jobId: int, insets: Edits)
    | FinalArea(jobId: int, maxResolution: Option<int>)

  /** The steps of the state machine one call amounts to. */
  ghost function OpsOfOne(s: Service, c: BusCall): seq<Model.Op> {
    match c
    case Change(op) => [op]
    case FinalArea(id, _) => if id in s.table then [Model.QueryCapabilities(s.table[id].printerId)] else []
    case _ => []
  }

  ghost function OpsOf(s: Service, calls: seq<BusCall>): seq<Model.Op>
    decreases |calls|
  {
    if calls == [] then []
    else
      var ops := OpsOfOne(s, calls[0]);
      ops + OpsOf(Model.Run(s, ops), calls[1..])
  }

  lemma RunFew(s: Service, c: BusCall)
    ensures Model.Run(s, OpsOfOne(s, c))
            == if c.Change? then Model.Step(s, c.op).0
               else if c.FinalArea? && c.jobId in s.table then
                 Model.Step(s, Model.QueryCapabilities(s.table[c.jobId].printerId)).0
               else s
  {
    hide Model.Step;
    if c.Change? {
      RunOne(s, c.op);
    } else if c.FinalArea? && c.jobId in s.table {
      RunOne(s, Model.QueryCapabilities(s.table[c.jobId].printerId));
    }
  }

  lemma RunOne(s: Service, op: Model.Op)
    ensures Model.Run(s, [op]) == Model.Step(s, op).0
  {
    hide Model.Step;
    assert [op][1..] == [];
    assert Model.Run(Model.Step(s, op).0, []) == Model.Step(s, op).0;
  }

  // ---------------------------------------------------------- a poll tick, job by job

  ghost function PolledOne(s: Service, id: int, answer: Option<Model.CupsJobState>): Service
    requires id in s.table && id in s.streams
  {
    var (job, events) := Model.PollJob(s.table[id], answer, s.clock);
    s.(table := s.table[id := job], streams := s.streams[id := s.streams[id] + events])
  }

  /** The jobs in `visited` have been polled, the others not yet. */
  ghost function Polled(s: Service, visited: set<int>, answers: int -> Option<Model.CupsJobState>): Service {
    s.(table := map id | id in s.table ::
         if id in visited then Model.PollJob(s.table[id], answers(id), s.clock).0 else s.table[id],
       streams := map id | id in s.streams ::
         s.streams[id] + if id in visited then Model.PollEvents(s, id, answers) else [])
  }

  method SomeElement<T(==)>(s: set<T>) returns (x: T)
    requires s != {}
    ensures x in s
  {
    x :| x in s;
  }

  /** The first i ids of an order. */
  ghost function Seen(order: seq<int>, i: nat): set<int>
    requires i <= |order|
  {
    set j | 0 <= j < i :: order[j]
  }

  lemma OneMoreSeen(order: seq<int>, i: nat)
    requires i < |order| && Distinct(order)
    ensures order[i] !in Seen(order, i) && Seen(order, i + 1) == Seen(order, i) + {order[i]}
  {
    forall id: int
      ensures id in Seen(order, i + 1) <==> id in Seen(order, i) + {order[i]}
    {
      if id in Seen(order, i + 1) {
        var j :| 0 <= j < i + 1 && order[j] == id;
        if j < i { assert order[j] in Seen(order, i); }
      }
    }
  }

  lemma EverySeen(order: seq<int>, ids: set<int>)
    requires forall id :: id in order <==> id in ids
    ensures Seen(order, 0) == {} && Seen(order, |order|) == ids
  {
    forall id: int
      ensures id in Seen(order, |order|) <==> id in ids
    {
      assert id in order <==> id in ids;
    }
  }

  ghost predicate SomeActive(s: Service, ids: set<int>) {
    exists id :: id in ids && id in s.table && s.table[id].phase == Model.Submitted
  }

  lemma SomeActiveOneMore(s: Service, ids: set<int>, id: int)
    requires id in s.table
    ensures SomeActive(s, ids + {id}) <==> SomeActive(s, ids) || s.table[id].phase == Model.Submitted
  {
    if SomeActive(s, ids) {
      var k :| k in ids && k in s.table && s.table[k].phase == Model.Submitted;
      assert k in ids + {id};
    } else if s.table[id].phase == Model.Submitted {
      assert id in ids + {id};
    }
  }

  lemma SomeActiveAll(s: Service)
    ensures SomeActive(s, s.table.Keys) <==> Model.AnySubmitted(s.table)
    ensures !SomeActive(s, {})
  {}

  lemma PolledNone(s: Service, answers: int -> Option<Model.CupsJobState>)
    ensures Polled(s, {}, answers) == s
  {
    assert forall id :: id in s.streams ==> s.streams[id] + [] == s.streams[id];
  }

  /** Visits of different jobs do not disturb one another. */
  lemma PolledOneMore(s: Service, visited: set<int>, id: int, answers: int -> Option<Model.CupsJobState>)
    requires id !in visited && id in s.table && id in s.streams
    ensures var p := Polled(s, visited, answers);
            && id in p.table && id in p.streams && p.table[id] == s.table[id]
            && Polled(s, visited + {id}, answers) == PolledOne(p, id, answers(id))
  {
    hide Model.PollJob;
    assert s.streams[id] + [] == s.streams[id];
  }

  lemma PolledAll(s: Service, answers: int -> Option<Model.CupsJobState>)
    ensures Polled(s, s.table.Keys, answers).(polling := s.polling && Model.AnySubmitted(s.table))
         == Model.StepPoll(s, answers)
  {
    hide Model.PollJob;
    forall id | id in s.streams
      ensures Polled(s, s.table.Keys, answers).streams[id] == Model.StepPoll(s, answers).streams[id]
    {}
  }

  lemma AreaAtDefault(media: string, p: PrintParams, units: int)
    ensures units <= 0 ==> AreaOf(media, p, units) == AreaOf(media, p, 300)
  {
    hide FindSheet, AreaOn;
  }

  /** The loop over the reasons CUPS lists. */
  method BlockedList(reasons: seq<string>, isToner: bool) returns (blocked: seq<string>)
    ensures blocked == BlockedReasons(reasons, isToner)
  {
    hide ReasonToWebos;
    blocked := [];
    for i := 0 to |reasons|
      invariant blocked == BlockedReasons(reasons[..i], isToner)
    {
      assert reasons[..i + 1][..i] == reasons[..i];
      var mapped := ReasonToWebos(reasons[i], isToner);
      if mapped.Some? { blocked := blocked + [mapped.value]; }
    }
    assert reasons[..|reasons|] == reasons;
  }

  /** Overlays the insets that were given. */
  method WithInsets(p: PrintParams, e: Edits) returns (q: PrintParams, touched: bool)
    ensures q == OverlayInsets(p, e) && touched == TouchesInsets(e)
  {
    q, touched := p, false;
    if e.topInset.Some? { q := q.(topInset := e.topInset.value); touched := true; }
    if e.leftInset.Some? { q := q.(leftInset := e.leftInset.value); touched := true; }
    if e.rightInset.Some? { q := q.(rightInset := e.rightInset.value); touched := true; }
    if e.bottomInset.Some? { q := q.(bottomInset := e.bottomInset.value); touched := true; }
  }

  /** The test of the k-th checked argument. */
  method Admits(e: Edits, k: nat) returns (ok: bool)
    ensures ok == !FieldRefused(e, k)
  {
    hide Accepts;
    match k {
      case 0 => ok := TakesKeyword(MEDIA_TABLE, e.mediaSize);
      case 1 => ok := TakesKeyword(MEDIATYPE_TABLE, e.mediaType);
      case 2 => ok := TakesKeyword(QUALITY_TABLE, e.printQuality);
      case 3 => ok := TakesKeyword(DUPLEX_TABLE, e.duplex);
      case 4 => ok := TakesKeyword(DRYTIME_TABLE, e.dryTime);
      case 5 => ok := TakesKeyword(COLOR_TABLE, e.color);
      case 6 => ok := TakesKeyword(TRAY_TABLE, e.tray);
      case _ => ok := e.numCopies.None? || 1 <= e.numCopies.value <= 99;
    }
  }

  /** An absent argument passes; a given one must be in the table. */
  method TakesKeyword(t: seq<Entry>, given: Option<string>) returns (ok: bool)
    ensures ok == !Rejects(t, given)
  {
    if given.None? { return true; }
    ok := InTable(t, given);
  }
}
