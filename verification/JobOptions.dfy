/** What CUPS is told about each job, over whole runs. */
module JobOptions {
  import opened Prelude
  import opened PrintableArea
  import opened CupsOptions
  import opened CupsSubmit
  import opened EditParams
  import opened SpoolPaths
  import opened JobModel
  import opened JobSteps
  import opened JobInvariants
  import opened JobHistory
  import opened JobTraffic

  // ------------------------------------------------------------------ one submission

  /** The submission of this job, built at this resolution from these parameters. */
  ghost predicate Carries(sub: Submission, printer: string, title: string, files: seq<string>, p: PrintParams,
                          maxResolution: Option<int>, w: World) {
    && sub.printer == printer && sub.title == title && sub.files == files && sub.world == w
    && sub.maxResolution == (if maxResolution.Some? then maxResolution.value else 0)
    && Tells(Options(sub.params), p, sub.maxResolution)
  }

  ghost predicate CarriesJob(sub: Submission, job: Job, maxResolution: Option<int>, w: World) {
    Carries(sub, job.printerId, job.description, job.files, job.params, maxResolution, w)
  }

  lemma SubmissionCarries(job: Job, maxResolution: Option<int>, w: World)
    ensures CarriesJob(SubmissionOf(job, maxResolution, w), job, maxResolution, w)
  {
    hide Tells, BuildParams, Options;
    ToldExactly(job.params, Or(maxResolution, 0));
  }

  lemma SubmitRecords(s: Service, id: int, maxResolution: Option<int>, w: World)
    requires id in s.table && s.table[id].files != []
    ensures var s' := SubmitJob(s, id, maxResolution, w).0;
            && id in s'.submissions && s'.submissions == s.submissions[id := s'.submissions[id]]
            && CarriesJob(s'.submissions[id], s.table[id], maxResolution, w)
  {
    var s1, err, cupsId := SubmitCases(s, id, maxResolution, w);
    SubmissionCarries(s.table[id], maxResolution, w);
    hide SubmitJob, Queued, SubmissionOf, CarriesJob;
    if err.None? { var job, e := QueuedParts(s1, id, cupsId); }
  }

  lemma CloseRecords(s: Service, id: int, maxResolution: Option<int>, w: World)
    requires Hands(s, id)
    ensures var s' := StepClose(s, id, maxResolution, w).0;
            && id in s'.submissions && s'.submissions == s.submissions[id := s'.submissions[id]]
            && CarriesJob(s'.submissions[id], s.table[id], maxResolution, w)
  {
    SubmitRecords(s, id, maxResolution, w);
    hide SubmitJob, StateEvent, CarriesJob;
  }

  lemma AllAtOnceRecords(s: Service, op: Op)
    requires op.AllAtOnce? && op.items != [] && AllPrintable(op.items)
    ensures var s', id := Step(s, op).0, s.nextId;
            && id in s'.submissions && s'.submissions == s.submissions[id := s'.submissions[id]]
            && |s'.submissions[id].files| == |op.items|
            && (forall k :: 0 <= k < |op.items| ==> s'.submissions[id].files[k] == op.items[k].path)
            && Carries(s'.submissions[id], op.printer, op.description, s'.submissions[id].files,
                       InitialParams().(autoScale := op.autoScale.Some? && op.autoScale.value), op.maxResolution, op.world)
  {
    var s1 := AllAtOnceCases(s, op);
    PathsAre(op.items);
    FilledCarries(s, op);
    hide Step, Filled, Opened, SubmitFilled, FirstItemError, IsNew, Freed, AllPrintable, Carries, SubmitJob, Queued, InitialParams;
    var s2, err, cupsId, e := SubmitFilledCases(s1, s.nextId, op.maxResolution, op.world);
    SubmitRecords(s1, s.nextId, op.maxResolution, op.world);
    if err.None? { var job, e := QueuedParts(s2, s.nextId, cupsId); }
  }

  lemma FilledCarries(s: Service, op: Op)
    requires op.AllAtOnce? && FirstItemError(op.items).None?
    ensures var s1 := Filled(s, op.printer, op.description, op.appName, op.dirMade, op.autoScale, op.items);
            && s.nextId in s1.table && s1.submissions == s.submissions
            && var job := s1.table[s.nextId];
               && job.printerId == op.printer && job.description == op.description && job.files == PathsOf(op.items)
               && job.params == InitialParams().(autoScale := op.autoScale.Some? && op.autoScale.value)
  {
    hide FirstItemError, PathsOf;
  }

  /**
   * A submission goes on record exactly where one is sent, and carries the job's printer, title and files, and the
   * options that tell its parameters at the resolution asked for; every other operation leaves the record alone.
   */
  lemma SubmissionRecorded(s: Service, op: Op)
    requires TableInv(s)
    ensures var s' := Step(s, op).0;
            if op.Close? && Hands(s, op.jobId) then
              && op.jobId in s'.submissions && s'.submissions == s.submissions[op.jobId := s'.submissions[op.jobId]]
              && CarriesJob(s'.submissions[op.jobId], s.table[op.jobId], op.maxResolution, op.world)
            else if op.AllAtOnce? && op.items != [] && AllPrintable(op.items) then
              && s.nextId in s'.submissions && s'.submissions == s.submissions[s.nextId := s'.submissions[s.nextId]]
              && |s'.submissions[s.nextId].files| == |op.items|
              && (forall k :: 0 <= k < |op.items| ==> s'.submissions[s.nextId].files[k] == op.items[k].path)
              && Carries(s'.submissions[s.nextId], op.printer, op.description, s'.submissions[s.nextId].files,
                         InitialParams().(autoScale := op.autoScale.Some? && op.autoScale.value), op.maxResolution, op.world)
            else
              s'.submissions == s.submissions
  {
    hide Carries, CarriesJob, StepAllAtOnce, StepClose, StateEvent, Edited, TempPath, JobOk, InitialParams, AllPrintable;
    if op.Close? && Hands(s, op.jobId) {
      CloseRecords(s, op.jobId, op.maxResolution, op.world);
    } else if op.AllAtOnce? {
      if op.items != [] && AllPrintable(op.items) { AllAtOnceRecords(s, op); } else { NothingRecorded(s, op); }
    } else if op.Close? {
      CloseRecordsNothing(s, op.jobId, op.maxResolution, op.world);
    }
  }

  lemma NothingRecorded(s: Service, op: Op)
    requires op.AllAtOnce? && (op.items == [] || !AllPrintable(op.items))
    ensures Step(s, op).0.submissions == s.submissions
  {
    var s1 := AllAtOnceCases(s, op);
    GoodItems(op.items);
    hide Step, Filled, FirstItemError, IsNew, Freed, AllPrintable;
  }

  lemma CloseRecordsNothing(s: Service, id: int, maxResolution: Option<int>, w: World)
    requires !Hands(s, id)
    ensures StepClose(s, id, maxResolution, w).0.submissions == s.submissions
  {
    hide SubmitJob, StateEvent;
  }

  // ----------------------------------------------------------------------- whole runs

  /** The options of a job that left the table: all its parameters but the scaling were the initial ones. */
  ghost predicate TellsInitial(o: seq<CupsOption>, maxResolution: int) {
    exists scale: bool :: ValidParams(InitialParams().(autoScale := scale))
                          && Tells(o, InitialParams().(autoScale := scale), maxResolution)
  }

  /** What a submission tells about its job, which may have left the table. */
  ghost predicate TellsJob(s: Service, id: int, o: seq<CupsOption>, maxResolution: int) {
    if id in s.table then Tells(o, s.table[id].params, maxResolution) else TellsInitial(o, maxResolution)
  }

  ghost predicate DroppedInv(s: Service) {
    forall id :: id in s.submissions && id !in s.table ==>
      TellsInitial(Options(s.submissions[id].params), s.submissions[id].maxResolution)
  }

  lemma DroppedStep(s: Service, op: Op)
    requires TableInv(s) && SubmissionInv(s) && DroppedInv(s)
    ensures DroppedInv(Step(s, op).0)
  {
    var s' := Step(s, op).0;
    StepLater(s, op);
    RecordedOnce(s, op);
    hide Step, TableInv, TellsInitial, JobLater, SubmissionInv;
  }

  /** A new submission is that of a job in the table, or tells initial parameters. */
  lemma RecordedOnce(s: Service, op: Op)
    requires TableInv(s)
    ensures var s' := Step(s, op).0;
            forall id :: id in s'.submissions && (id !in s.submissions || s'.submissions[id] != s.submissions[id]) ==>
              id in s.table || TellsInitial(Options(s'.submissions[id].params), s'.submissions[id].maxResolution)
  {
    var s' := Step(s, op).0;
    SubmissionRecorded(s, op);
    hide Step, TableInv, Tells, AllPrintable, InitialParams, TellsInitial, CarriesJob;
    if op.AllAtOnce? && op.items != [] && AllPrintable(op.items) {
      InitialTold(s'.submissions[s.nextId], op.autoScale.Some? && op.autoScale.value);
    }
  }

  lemma InitialTold(sub: Submission, scale: bool)
    requires Tells(Options(sub.params), InitialParams().(autoScale := scale), sub.maxResolution)
    ensures TellsInitial(Options(sub.params), sub.maxResolution)
  {
    InitialParamsValid();
    ScalingKeepsValid(InitialParams(), scale);
    hide Tells, Options, ValidParams, InitialParams;
  }

  lemma {:induction false} DroppedRun(s: Service, ops: seq<Op>)
    requires TableInv(s) && SubmissionInv(s) && DroppedInv(s)
    ensures DroppedInv(Run(s, ops))
    decreases |ops|
  {
    if ops != [] {
      hide Step, TableInv, SubmissionInv, DroppedInv;
      TableStep(s, ops[0]);
      SubmissionStep(s, ops[0]);
      DroppedStep(s, ops[0]);
      DroppedRun(Step(s, ops[0]).0, ops[1..]);
    }
  }

  /**
   * Every submission of every run, those CUPS refused and those of jobs allAtOnce removed included, tells the job's
   * parameters exactly, and carries sides, colour mode, scaling and copies.
   */
  lemma SubmissionsComplete(clock: nat, ops: seq<Op>, id: int)
    requires id in Run(InitialService(clock), ops).submissions
    ensures var s := Run(InitialService(clock), ops);
            var sub := s.submissions[id];
            Complete(Options(sub.params)) && TellsJob(s, id, Options(sub.params), sub.maxResolution)
  {
    var s0 := InitialService(clock);
    InitialTableInv(clock);
    NothingYet(clock);
    assert DroppedInv(s0);
    hide Run, InitialService, TableInv, SubmissionInv, DroppedInv, TellsJob, Complete, Options;
    TableRun(s0, ops);
    RunLater(s0, ops);
    DroppedRun(s0, ops);
    ToldInTable(Run(s0, ops), id);
  }

  lemma ToldInTable(s: Service, id: int)
    requires TableInv(s) && SubmissionInv(s) && DroppedInv(s) && id in s.submissions
    ensures var sub := s.submissions[id];
            Complete(Options(sub.params)) && TellsJob(s, id, Options(sub.params), sub.maxResolution)
  {
    hide Tells, Complete, Options, TellsInitial, Matches, ValidParams;
    if id in s.table { ToldOfJob(s.table[id], s.submissions[id]); } else { InitialIsComplete(s.submissions[id]); }
  }

  lemma ToldOfJob(job: Job, sub: Submission)
    requires Matches(job, sub) && ValidParams(job.params)
    ensures Complete(Options(sub.params)) && Tells(Options(sub.params), job.params, sub.maxResolution)
  {
    ToldExactly(job.params, sub.maxResolution);
    AttributeOptions(job.params, sub.maxResolution);
    hide Tells, Complete, Options, BuildParams, ValidParams, SubmitCalls;
  }

  lemma InitialIsComplete(sub: Submission)
    requires TellsInitial(Options(sub.params), sub.maxResolution)
    ensures Complete(Options(sub.params))
  {
    hide InitialParams, Options, TellsMedia, TellsQuality, TellsMargins;
    var scale :| ValidParams(InitialParams().(autoScale := scale))
                 && Tells(Options(sub.params), InitialParams().(autoScale := scale), sub.maxResolution);
    var p := InitialParams().(autoScale := scale);
    DuplexAndColorMapped(p.duplex, p.color);
    LayoutIsComplete(Options(sub.params), p);
  }

  // ------------------------------------------------------------- what CUPS creates

  lemma {:induction false} NoCreationInWrites(content: seq<Byte>, writes: nat -> bool, k: nat)
    ensures forall c :: c in WriteCalls(content, writes, k).0 ==> !c.CreateJob?
    decreases |content|
  {
    if content != [] { NoCreationInWrites(content[|NextChunk(content)|..], writes, k + 1); }
  }

  lemma {:induction false} NoCreationInDocs(printer: string, files: seq<string>, i: nat, id: int, w: World)
    requires i <= |files|
    ensures forall c :: c in DocsCalls(printer, files, i, id, w).0 ==> !c.CreateJob?
    decreases |files| - i
  {
    if i < |files| {
      NoCreationInDocument(printer, files, i, id, w.docs(i));
      hide DocCalls;
      NoCreationInDocs(printer, files, i + 1, id, w);
    }
  }

  lemma NoCreationInDocument(printer: string, files: seq<string>, i: nat, id: int, d: DocAnswers)
    requires i < |files|
    ensures forall c :: c in DocCalls(printer, files, i, id, d).0 ==> !c.CreateJob?
  {
    NoCreationInWrites(d.content, d.writes, 0);
    hide WriteCalls;
  }

  /** The job CUPS is asked to create in a submission. */
  predicate Creates(sub: Submission, c: Call) {
    c == CreateJob(sub.printer, sub.title, Options(sub.params), sub.world.created)
  }

  lemma CreationOf(sub: Submission, c: Call)
    requires c in sub.Calls() && c.CreateJob?
    ensures Creates(sub, c)
  {
    hide Options, DocsCalls;
    if sub.world.created > 0 { NoCreationInDocs(sub.printer, sub.files, 0, sub.world.created, sub.world); }
  }

  lemma {:induction false} CreationsInTraffic(subs: map<int, Submission>, blocks: seq<Block>, c: Call)
    requires forall b :: b in blocks ==> Known(subs, b)
    requires c in Traffic(subs, blocks) && c.CreateJob?
    ensures exists id :: id in subs && Creates(subs[id], c)
  {
    var init, last := blocks[..|blocks| - 1], blocks[|blocks| - 1];
    if c in Traffic(subs, init) {
      hide SubmitCalls, Known;
      CreationsInTraffic(subs, init, c);
    } else {
      assert c in BlockCalls(subs, last);
      CreationInBlock(subs, last, c);
    }
  }

  lemma CreationInBlock(subs: map<int, Submission>, b: Block, c: Call)
    requires Known(subs, b) && c in BlockCalls(subs, b) && c.CreateJob?
    ensures b.Sent? && b.id in subs && Creates(subs[b.id], c)
  {
    hide SubmitCalls, Creates;
    if b.Sent? { CreationOf(subs[b.id], c); }
  }

  /**
   * Every job CUPS is ever asked to create is that of a submission on record: under its title and printer, with the
   * options that tell its parameters.
   */
  lemma CreatedAsTold(clock: nat, ops: seq<Op>, c: Call)
    requires c in Run(InitialService(clock), ops).cups && c.CreateJob?
    ensures var s := Run(InitialService(clock), ops);
            exists id :: && id in s.submissions && c.printer == s.submissions[id].printer && c.title == s.submissions[id].title
                         && Complete(c.options) && TellsJob(s, id, c.options, s.submissions[id].maxResolution)
  {
    HandedOverOnce(clock, ops);
    var s := Run(InitialService(clock), ops);
    hide Run, TellsJob, Complete, Options, Known, Traffic, InitialService;
    CreationsInTraffic(s.submissions, History(InitialService(clock), ops), c);
    var id :| id in s.submissions && Creates(s.submissions[id], c);
    SubmissionsComplete(clock, ops, id);
  }
}
