/** The larger steps of the job table taken apart, so that proofs need not unfold them. */
module JobSteps {
  import opened Prelude
  import opened PrintErrors
  import opened PrintableArea
  import opened CupsSubmit
  import opened SpoolPaths
  import opened JobModel

  // ---------------------------------------------------------------------- a new job

  /** A job as open and allAtOnce make it: open, unknown to CUPS and without scratch files. */
  ghost predicate IsNew(job: Job, id: nat, now: nat) {
    && job.jobId == id && job.cupsJobId == -1 && job.phase.Open? && job.queuedAt == now && job.startedAt == 0
    && job.tempFiles == [] && job.currentPage == 0 && job.lastPrinterState.None?
    && (job.tempDir.Some? ==> job.tempDir.value == TempDir(SPOOL_ROOT, id))
    && job.params == InitialParams().(autoScale := job.params.autoScale)
  }

  /** s1 is s with one new job. */
  ghost predicate Joined(s: Service, s1: Service) {
    && s1.nextId == s.nextId + 1
    && s.nextId in s1.table && s1.table == s.table[s.nextId := s1.table[s.nextId]]
    && s1.streams == s.streams[s.nextId := StreamOf(s.streams, s.nextId)]
    && s1 == s.(table := s1.table, streams := s1.streams, nextId := s1.nextId)
    && IsNew(s1.table[s.nextId], s.nextId, s.clock)
  }

  lemma OpenedJoins(s: Service, printer: string, description: string, appName: string, dirMade: bool)
    ensures Joined(s, Opened(s, printer, description, appName, dirMade))
    ensures Opened(s, printer, description, appName, dirMade).table[s.nextId].files == []
  {
    hide InitialParams, TempDir;
  }

  lemma FilledJoins(s: Service, printer: string, description: string, appName: string, dirMade: bool,
                    autoScale: Option<bool>, items: seq<Item>)
    requires FirstItemError(items).None?
    ensures var s1 := Filled(s, printer, description, appName, dirMade, autoScale, items);
            Joined(s, s1) && s1.table[s.nextId].files == PathsOf(items) && s1.table[s.nextId].totalPages == |items|
  {
    OpenedJoins(s, printer, description, appName, dirMade);
    var job := FreshJob(s.nextId, printer, description, appName, dirMade, s.clock);
    var filled := job.(params := job.params.(autoScale := Or(autoScale, job.params.autoScale)),
                       files := PathsOf(items), totalPages := |items|);
    FreshIsNew(s.nextId, printer, description, appName, dirMade, s.clock);
    hide Joined, Opened, FirstItemError, PathsOf, FreshJob;
    FilledIsNew(job, s.nextId, s.clock, filled.params.autoScale, filled.files, filled.totalPages);
    JoinedWith(s, Opened(s, printer, description, appName, dirMade), filled);
  }

  lemma FreshIsNew(id: nat, printer: string, description: string, appName: string, dirMade: bool, now: nat)
    ensures IsNew(FreshJob(id, printer, description, appName, dirMade, now), id, now)
  {
    hide InitialParams, TempDir;
  }

  lemma FilledIsNew(job: Job, id: nat, now: nat, scale: bool, files: seq<string>, total: int)
    requires IsNew(job, id, now)
    ensures IsNew(job.(params := job.params.(autoScale := scale), files := files, totalPages := total), id, now)
  {
    hide InitialParams, TempDir;
  }

  /** A new job may be replaced by another under its id. */
  lemma JoinedWith(s: Service, s1: Service, job: Job)
    requires Joined(s, s1) && IsNew(job, s.nextId, s.clock)
    ensures Joined(s, s1.(table := s1.table[s.nextId := job]))
  {
    hide IsNew;
    assert s1.table[s.nextId := job] == s.table[s.nextId := job];
  }

  /** allAtOnce: no files, a bad element, or the submission of a filled job. */
  lemma AllAtOnceCases(s: Service, op: Op) returns (s1: Service)
    requires op.AllAtOnce?
    ensures op.items == [] ==> Step(s, op) == (s, Failure(NO_FILES_TO_PRINT))
    ensures op.items != [] ==> Joined(s, s1)
    ensures op.items != [] && FirstItemError(op.items).Some? ==>
              Step(s, op) == (Remove(s1, s.nextId), Failure(FirstItemError(op.items).value))
    ensures op.items != [] && FirstItemError(op.items).None? ==>
              && s1 == Filled(s, op.printer, op.description, op.appName, op.dirMade, op.autoScale, op.items)
              && s1.table[s.nextId].files != []
              && Step(s, op) == SubmitFilled(s1, s.nextId, op.maxResolution, op.world)
  {
    hide Opened, Filled, SubmitFilled, FirstItemError, Joined, PathsOf, Remove;
    s1 := Opened(s, op.printer, op.description, op.appName, op.dirMade);
    OpenedJoins(s, op.printer, op.description, op.appName, op.dirMade);
    if op.items != [] && FirstItemError(op.items).None? {
      s1 := Filled(s, op.printer, op.description, op.appName, op.dirMade, op.autoScale, op.items);
      FilledJoins(s, op.printer, op.description, op.appName, op.dirMade, op.autoScale, op.items);
      PathsNotEmpty(op.items);
    }
  }

  // ------------------------------------------------------------ the elements of pathNames

  predicate AllPrintable(items: seq<Item>) {
    forall k :: 0 <= k < |items| ==> items[k].Path? && items[k].check.Printable?
  }

  /** The elements are all taken exactly if each names a file that exists, is not empty and can be printed. */
  lemma {:induction false} GoodItems(items: seq<Item>)
    ensures FirstItemError(items).None? <==> AllPrintable(items)
  {
    if items != [] {
      GoodItems(items[1..]);
      assert forall k :: 0 < k < |items| ==> items[k] == items[1..][k - 1];
    }
  }

  /** Then the files are the paths, in order. */
  lemma {:induction false} PathsAre(items: seq<Item>)
    requires AllPrintable(items)
    ensures FirstItemError(items).None?
    ensures |PathsOf(items)| == |items| && forall k :: 0 <= k < |items| ==> PathsOf(items)[k] == items[k].path
  {
    if items != [] {
      assert forall k :: 0 < k < |items| ==> items[k] == items[1..][k - 1];
      PathsAre(items[1..]);
    }
  }

  // What a file that cannot be printed is reported as.
  const CHECK_ERRORS := {(Missing, -604), (Empty, -601), (Unrecognised, -618)}

  /** Otherwise the first element that is not taken decides. */
  lemma {:induction false} FirstBadItem(items: seq<Item>, n: nat)
    requires n < |items| && AllPrintable(items[..n]) && !AllPrintable([items[n]])
    ensures FirstItemError(items).Some?
    ensures var err := FirstItemError(items).value;
            match items[n] case NotAString => err == -610 case Path(_, check) => (check, err) in CHECK_ERRORS
  {
    if n == 0 {
      assert [items[0]][0] == items[0];
    } else {
      assert items[..n][0] == items[0];
      assert items[1..][..n - 1] == items[..n][1..] && items[1..][n - 1] == items[n];
      FirstBadItem(items[1..], n - 1);
    }
  }

  lemma PathsNotEmpty(items: seq<Item>)
    requires items != [] && FirstItemError(items).None?
    ensures PathsOf(items) != []
  {}

  // ------------------------------------------------------------------- a submission

  /** s1 is s with one more submission on record. */
  ghost predicate Recorded(s: Service, s1: Service, id: int) {
    && s1 == s.(cups := s1.cups, submissions := s1.submissions)
    && id in s1.submissions && s1.submissions == s.submissions[id := s1.submissions[id]]
  }

  /** A submission: no files, a refusal that leaves all but the record alone, or a queued job. */
  lemma SubmitCases(s: Service, id: int, maxResolution: Option<int>, w: World)
      returns (s1: Service, err: Option<int>, cupsId: int)
    requires id in s.table
    ensures s1 == s || Recorded(s, s1, id)
    ensures s1.table == s.table && s1.streams == s.streams && s1.nextId == s.nextId && s1.clock == s.clock
    ensures s1.polling == s.polling && s1.handed == s.handed && s1.cleanups == s.cleanups
    ensures id in s1.table && SubmitJob(s, id, maxResolution, w)
                              == if err.Some? then (s1, err) else (Queued(s1, id, cupsId), None)
    ensures err.None? ==> s.table[id].files != []
    ensures if s.table[id].files == [] then s1 == s
            else Recorded(s, s1, id) && s1.submissions[id] == SubmissionOf(s.table[id], maxResolution, w)
  {
    hide SubmissionOf, Queued;
    var r := SubmissionOf(s.table[id], maxResolution, w).Result();
    if s.table[id].files == [] {
      s1, err, cupsId := s, Some(NO_FILES_TO_PRINT), 0;
    } else {
      s1 := SubmissionOnRecord(s, id, SubmissionOf(s.table[id], maxResolution, w));
      match r
      case Refused(e) => err, cupsId := Some(e), 0;
      case Submitted(c) => err, cupsId := None, c;
    }
  }

  /** The job record and the one event of a queued job. */
  lemma QueuedParts(s: Service, id: int, cupsId: int) returns (job: Job, e: Event)
    requires id in s.table
    ensures job == s.table[id].(cupsJobId := cupsId, phase := Phase.Submitted, lastPrinterState := Some("QUEUED"),
                     totalPages := if s.table[id].totalPages < 0 then |s.table[id].files| else s.table[id].totalPages)
    ensures Queued(s, id, cupsId) == s.(table := s.table[id := job], streams := Post(s.streams, id, e), polling := true)
    ensures e == StateChange("QUEUED", None, Progress(job.currentPage, job.totalPages, []))
  {
    job := Queued(s, id, cupsId).table[id];
    e := StateEvent(job.(lastPrinterState := s.table[id].lastPrinterState), "QUEUED", None, [], s.clock);
  }

  /** The submission of a filled job: queued, or reported as an error and removed. */
  lemma SubmitFilledCases(s: Service, id: int, maxResolution: Option<int>, w: World)
      returns (s1: Service, err: Option<int>, cupsId: int, e: Event)
    requires id in s.table
    ensures (s1 == s || Recorded(s, s1, id)) && id in s1.table
    ensures s1.table == s.table && s1.streams == s.streams && s1.nextId == s.nextId && s1.clock == s.clock
    ensures s1.polling == s.polling && s1.handed == s.handed && s1.cleanups == s.cleanups
    ensures SubmitJob(s, id, maxResolution, w) == if err.Some? then (s1, err) else (Queued(s1, id, cupsId), None)
    ensures e == StateEvent(s.table[id], "DONE", Some("Error"), [], s.clock)
    ensures SubmitFilled(s, id, maxResolution, w)
            == if err.None? then (Queued(s1, id, cupsId), NewJob(id))
               else (Remove(s1.(streams := Post(s1.streams, id, e)), id), Failure(err.value))
    ensures err.None? ==> s.table[id].files != []
  {
    hide SubmitJob, Queued, Remove, StateEvent, Post;
    s1, err, cupsId := SubmitCases(s, id, maxResolution, w);
    e := StateEvent(s.table[id], "DONE", Some("Error"), [], s.clock);
  }
}
