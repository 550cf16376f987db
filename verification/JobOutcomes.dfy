/** When each handler replies what, and what it does to its job, in terms of its arguments and the job alone. */
module JobOutcomes {
  import opened Prelude
  import opened Decimal
  import opened ParamMap
  import opened PrintableArea
  import opened CupsOptions
  import opened CupsSubmit
  import opened EditParams
  import opened SpoolPaths
  import opened JobModel
  import opened JobSteps
  import opened JobInvariants
  import opened JobHistory

  // --------------------------------------------------------------------------- open

  /** A job starts open and empty, with the parameters a client finds on a fresh job. */
  lemma OpenOutcome(s: Service, op: Op)
    requires op.OpenJob?
    ensures var (s', reply) := Step(s, op);
            && reply == NewJob(s.nextId) && s'.nextId == s.nextId + 1 && s.nextId in s'.table
            && var job := s'.table[s.nextId];
               && job.phase.Open? && job.files == [] && job.tempFiles == [] && job.currentPage == 0 && job.totalPages == -1
               && job.params == PrintParams("US_Letter", "Plain", "Normal", "None", "Normal", "Color", "Auto", 1,
                                            false, false, false, 0.125, 0.125, 0.125, 0.125, false)
               && s' == s.(table := s.table[s.nextId := job], streams := s'.streams, nextId := s'.nextId)
               && s'.streams == s.streams[s.nextId := StreamOf(s.streams, s.nextId)]
  {
    hide TempDir;
  }

  /** The parts of a job that say where it came from. */
  ghost predicate AsOpened(job: Job, op: Op, id: nat, now: nat)
    requires op.OpenJob?
  {
    && job.jobId == id && job.printerId == op.printer && job.description == op.description && job.appName == op.appName
    && job.queuedAt == now
    && job.tempDir == if op.dirMade then Some("/var/spool/luneos-print/job-" + Dec(id)) else None
  }

  /** What open was told about a job it keeps for good, and so does the directory it was given. */
  lemma IdentityKept(s: Service, op: Op, ops: seq<Op>)
    requires TableInv(s) && SubmissionInv(s) && op.OpenJob?
    ensures var r := Run(Step(s, op).0, ops);
            s.nextId in r.table && AsOpened(r.table[s.nextId], op, s.nextId, s.clock)
  {
    TableStep(s, op);
    SubmissionStep(s, op);
    OpenedAsAsked(s, op);
    var s1 := Step(s, op).0;
    hide Step, TableInv, SubmissionInv, Run, AsOpened;
    RunLater(s1, ops);
    AsOpenedLater(s1.table[s.nextId], Run(s1, ops).table[s.nextId], op, s.nextId, s.clock);
  }

  lemma OpenedAsAsked(s: Service, op: Op)
    requires op.OpenJob?
    ensures s.nextId in Step(s, op).0.table && AsOpened(Step(s, op).0.table[s.nextId], op, s.nextId, s.clock)
  {
    hide InitialParams, Dec;
    assert SPOOL_ROOT + "/job-" == "/var/spool/luneos-print/job-";
  }

  lemma AsOpenedLater(a: Job, b: Job, op: Op, id: nat, now: nat)
    requires op.OpenJob? && AsOpened(a, op, id, now) && JobLater(a, b)
    ensures AsOpened(b, op, id, now)
  {}

  // --------------------------------------------------------------------------- edit

  predicate Bad(t: seq<Entry>, given: Option<string>) {
    given.Some? && forall k :: 0 <= k < |t| ==> t[k].webos != given.value
  }

  predicate BadCopies(given: Option<int>) {
    given.Some? && !(1 <= given.value <= 99)
  }

  /** The fields are looked at in this order, and the first bad one is reported. */
  function FieldError(e: Edits): Option<int> {
    if Bad(MEDIA_TABLE, e.mediaSize) then Some(-608)
    else if Bad(MEDIATYPE_TABLE, e.mediaType) then Some(-609)
    else if Bad(QUALITY_TABLE, e.printQuality) then Some(-611)
    else if Bad(DUPLEX_TABLE, e.duplex) then Some(-607)
    else if Bad(DRYTIME_TABLE, e.dryTime) then Some(-606)
    else if Bad(COLOR_TABLE, e.color) then Some(-605)
    else if Bad(TRAY_TABLE, e.tray) then Some(-612)
    else if BadCopies(e.numCopies) then Some(-610)
    else None
  }

  predicate Reads<T(==)>(now: T, given: Option<T>, before: T) {
    now == if given.Some? then given.value else before
  }

  /** q has each field given, and p's value of each that is not. */
  predicate ReadsBack(q: PrintParams, e: Edits, p: PrintParams) {
    && Reads(q.mediaSize, e.mediaSize, p.mediaSize) && Reads(q.mediaType, e.mediaType, p.mediaType)
    && Reads(q.printQuality, e.printQuality, p.printQuality) && Reads(q.duplex, e.duplex, p.duplex)
    && Reads(q.dryTime, e.dryTime, p.dryTime) && Reads(q.color, e.color, p.color)
    && Reads(q.tray, e.tray, p.tray) && Reads(q.numCopies, e.numCopies, p.numCopies)
    && Reads(q.borderless, e.borderless, p.borderless) && Reads(q.autoRotate, e.autoRotate, p.autoRotate)
    && Reads(q.autoScale, e.autoScale, p.autoScale)
    && Reads(q.topInset, e.topInset, p.topInset) && Reads(q.leftInset, e.leftInset, p.leftInset)
    && Reads(q.rightInset, e.rightInset, p.rightInset) && Reads(q.bottomInset, e.bottomInset, p.bottomInset)
    && (q.insetsSet <==> p.insetsSet || e.topInset.Some? || e.leftInset.Some? || e.rightInset.Some? || e.bottomInset.Some?)
  }

  lemma EditedIs(p: PrintParams, e: Edits)
    ensures var (q, err) := Edited(p, e);
            if FieldError(e).Some? then err == FieldError(e)
            else ReadsBack(q, e, p) && err == if q.borderless && q.insetsSet then Some(-602) else None
  {
    hide OverlayFields;
    FieldErrorIs(e);
    if FieldError(e).None? {
      hide FieldError, FieldRefused;
      assert FirstRefused(e) == 8;
      hide FirstRefused;
      OverlaidAll(p, e);
    }
  }

  lemma OverlaidAll(p: PrintParams, e: Edits)
    ensures ReadsBack(Overlay(p, e), e, p)
  {}

  lemma FieldErrorIs(e: Edits)
    ensures FieldError(e) == if FirstRefused(e) < 8 then Some(FIELD_ERRORS[FirstRefused(e)]) else None
  {
    BadIsRejected(MEDIA_TABLE, e.mediaSize);
    BadIsRejected(MEDIATYPE_TABLE, e.mediaType);
    BadIsRejected(QUALITY_TABLE, e.printQuality);
    BadIsRejected(DUPLEX_TABLE, e.duplex);
    BadIsRejected(DRYTIME_TABLE, e.dryTime);
    BadIsRejected(COLOR_TABLE, e.color);
    BadIsRejected(TRAY_TABLE, e.tray);
    hide Bad, Rejects;
  }

  lemma BadIsRejected(t: seq<Entry>, given: Option<string>)
    ensures Bad(t, given) <==> Rejects(t, given)
  {}

  /**
   * An edit of an open job succeeds exactly if no field is bad and borderless does not meet insets. Then, and if it
   * fails for that meeting, every field given reads back and every other is as before; nothing but the parameters
   * changes, ever.
   */
  lemma EditOutcome(s: Service, op: Op)
    requires op.Edit?
    ensures var (s', reply) := Step(s, op);
            if op.jobId !in s.table then s' == s && reply == Failure(-617)
            else if !s.table[op.jobId].phase.Open? then s' == s && reply == Failure(-501)
            else
              && op.jobId in s'.table
              && var p, q := s.table[op.jobId].params, s'.table[op.jobId].params;
                 && s' == s.(table := s.table[op.jobId := s.table[op.jobId].(params := q)])
                 && (FieldError(op.edits).Some? ==> reply == Failure(FieldError(op.edits).value))
                 && (FieldError(op.edits).None? ==>
                       ReadsBack(q, op.edits, p) && reply == if q.borderless && q.insetsSet then Failure(-602) else Success)
  {
    if op.jobId in s.table { EditedIs(s.table[op.jobId].params, op.edits); }
    hide Edited, FieldError, ReadsBack;
  }

  // -------------------------------------------------------------------- scratch files

  /** Scratch files are numbered from 001 in the job's directory. */
  lemma NewTempFileOutcome(s: Service, op: Op)
    requires op.NewTempFile?
    ensures var (s', reply) := Step(s, op);
            if op.jobId !in s.table then s' == s && reply == Failure(-617)
            else if op.extension == "" then s' == s && reply == Failure(-603)
            else if s.table[op.jobId].tempDir.None? || !op.created then s' == s && reply == Failure(-705)
            else if op.size > 0 && !op.reserved then s' == s && reply == Failure(-233)
            else
              var job := s.table[op.jobId];
              var path := job.tempDir.value + "/page-" + Padded(|job.tempFiles| + 1) + "." + op.extension;
              && reply == NewPath(path)
              && s' == s.(table := s.table[op.jobId := job.(tempFiles := job.tempFiles + [path])], handed := s'.handed)
              && s'.handed == s.handed + [Handed(job.jobId, |job.tempFiles| + 1, path)]
  {}

  lemma FormatExamples()
    ensures Dec(120) == "120" && SignedDec(-120) == "-120"
    ensures Padded(1) == "001" && Padded(42) == "042" && Padded(1000) == "1000"
  {}

  lemma PathExample()
    ensures TempPath(TempDir(SPOOL_ROOT, 1), 1, "png") == "/var/spool/luneos-print/job-1/page-001.png"
  {
    FormatExamples();
    assert Dec(1) == "1";
    hide Dec, Padded;
    assert TempDir(SPOOL_ROOT, 1) == "/var/spool/luneos-print/job-1";
  }

  /** Removing a job unlinks each of its scratch files, in order, and then its directory; nothing else. */
  lemma RemovalFrees(s: Service, id: int, k: nat)
    requires id in s.table
    ensures var job, freed := s.table[id], Remove(s, id).cleanups[|s.cleanups|..];
            && Remove(s, id).cleanups == s.cleanups + freed
            && |freed| == |job.tempFiles| + (if job.tempDir.Some? then 1 else 0)
            && (k < |job.tempFiles| ==> freed[k] == Unlinked(job.tempFiles[k]))
            && (|job.tempFiles| <= k < |freed| ==> freed[k] == DirRemoved(job.tempDir.value))
            && Remove(s, id).table == s.table - {id}
  {
    assert Remove(s, id).cleanups[|s.cleanups|..] == Freed(s.table[id]);
  }

  // -------------------------------------------------------------------------- close

  /**
   * Closing an open job without files ends it. With files it is submitted: if CUPS takes it, it goes on under the id
   * CUPS gave it, with a page total if it had none, and the timer armed; if not, it ends and the error is the reply.
   */
  lemma CloseOutcome(s: Service, op: Op)
    requires op.Close?
    ensures var (s', reply) := Step(s, op);
            if op.jobId !in s.table then s' == s && reply == Failure(-617)
            else if !s.table[op.jobId].phase.Open? then s' == s && reply == Failure(-501)
            else
              && op.jobId in s'.table && s'.table == s.table[op.jobId := s'.table[op.jobId]]
              && var job, job' := s.table[op.jobId], s'.table[op.jobId];
                 if job.files == [] then reply == Success && job' == job.(phase := Done) && s'.submissions == s.submissions
                 else
                   && op.jobId in s'.submissions
                   && match s'.submissions[op.jobId].Result()
                      case Refused(e) => reply == Failure(e) && job' == job.(phase := Done) && s'.polling == s.polling
                      case Submitted(c) => reply == Success && s'.polling && TakenUp(job, job', c)
  {
    hide StateEvent;
    if op.jobId in s.table && s.table[op.jobId].phase.Open? && s.table[op.jobId].files != [] {
      var s1, err, cupsId := SubmitCases(s, op.jobId, op.maxResolution, op.world);
      SubmitResultIs(s, op.jobId, op.maxResolution, op.world);
      SubmitKeepsJob(s, op.jobId, op.maxResolution, op.world);
      hide SubmitJob, Queued, SubmissionOf, SubmitCalls;
      if err.None? { var job, e := QueuedParts(s1, op.jobId, cupsId); }
    }
  }

  ghost predicate TakenUp(job: Job, job': Job, cupsId: int) {
    job' == job.(cupsJobId := cupsId, phase := Phase.Submitted, lastPrinterState := Some("QUEUED"),
                 totalPages := if job.totalPages < 0 then |job.files| else job.totalPages)
  }

  lemma SubmitResultIs(s: Service, id: int, maxResolution: Option<int>, w: World)
    requires id in s.table && s.table[id].files != []
    ensures var (s', err) := SubmitJob(s, id, maxResolution, w);
            && id in s'.submissions && id in s'.table
            && match s'.submissions[id].Result()
               case Refused(e) => err == Some(e)
               case Submitted(c) => err.None? && s'.table[id].cupsJobId == c
  {
    hide SubmitCalls, BuildParams, StateEvent;
  }
}
