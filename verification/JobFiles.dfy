/** Which files a job holds: exactly those offered to it and found printable, over whole runs. */
module JobFiles {
  import opened Prelude
  import opened PrintableArea
  import opened EditParams
  import opened SpoolPaths
  import opened JobModel
  import opened JobSteps
  import opened JobInvariants
  import opened JobHistory
  import opened JobPages

  // ------------------------------------------------------------------------ addFile

  /** op offers open job id a printable file, under no page number or the next one. */
  predicate Takes(s: Service, op: Op, id: int) {
    && op.AddFile? && op.jobId == id && id in s.table && s.table[id].phase.Open? && op.check.Printable?
    && (op.currentPage.Some? ==> op.currentPage.value == |s.table[id].files| + 1)
  }

  /**
   * addFile takes exactly such a file. Otherwise nothing changes, and the reply tells an unknown job, a closed one,
   * what is wrong with the file, or a page out of order, in this order.
   */
  lemma AddFileOutcome(s: Service, op: Op)
    requires op.AddFile?
    ensures var (s', reply) := Step(s, op);
            && (reply == Success <==> Takes(s, op, op.jobId))
            && (reply != Success ==> s' == s && reply.Failure?)
            && (reply == Failure(-617) <==> op.jobId !in s.table)
            && (reply == Failure(-501) <==> op.jobId in s.table && !s.table[op.jobId].phase.Open?)
            && (op.jobId in s.table && s.table[op.jobId].phase.Open? && reply != Success ==>
                  if op.check.Printable? then reply.err == -615 else (op.check, reply.err) in CHECK_ERRORS)
  {
    hide StateEvent;
  }

  /**
   * A file taken becomes the last one and is announced by its number. A page number or page total given along
   * becomes that of the job; what is not given stays.
   */
  lemma AddFileEffect(s: Service, op: Op)
    requires op.AddFile? && Takes(s, op, op.jobId)
    ensures var s', job := Step(s, op).0, s.table[op.jobId];
            && op.jobId in s'.table
            && var job' := s'.table[op.jobId];
               && job'.files == job.files + [op.path]
               && job'.currentPage == (if op.currentPage.Some? then |job.files| + 1 else job.currentPage)
               && job'.totalPages == (if op.totalPages.Some? then op.totalPages.value else job.totalPages)
               && s'.table == s.table[op.jobId := job.(files := job'.files, currentPage := job'.currentPage,
                                                       totalPages := job'.totalPages)]
               && s'.streams == s.streams[op.jobId := StreamOf(s.streams, op.jobId)
                                                      + [PageStart(|job.files| + 1, job'.totalPages)]]
               && s' == s.(table := s'.table, streams := s'.streams)
  {}

  // ----------------------------------------------------------------------- allAtOnce

  /** A call that gets as far as submitting has printable files only, and its job holds them in order. */
  lemma AllAtOnceFiles(s: Service, op: Op)
    requires TableInv(s) && op.AllAtOnce?
    ensures var (s', reply) := Step(s, op);
            && (s.nextId in s'.table ==>
                  && op.items != [] && AllPrintable(op.items) && |s'.table[s.nextId].files| == |op.items|
                  && forall k :: 0 <= k < |op.items| ==> s'.table[s.nextId].files[k] == op.items[k].path)
            && (reply == NewJob(s.nextId) <==> s.nextId in s'.table)
            && (!reply.Failure? ==> reply == NewJob(s.nextId))
  {
    var s1 := AllAtOnceCases(s, op);
    GoodItems(op.items);
    hide Step, Filled, Opened, SubmitFilled, FirstItemError, JobOk, IsNew, Freed, AllPrintable;
    if op.items != [] && FirstItemError(op.items).None? {
      PathsAre(op.items);
      FilledJoins(s, op.printer, op.description, op.appName, op.dirMade, op.autoScale, op.items);
      var s2, err, cupsId, e := SubmitFilledCases(s1, s.nextId, op.maxResolution, op.world);
    }
  }

  /**
   * Otherwise no files at all are reported as -614 before a job is even opened, and the first element that is no
   * text or names a file that cannot be printed decides the error.
   */
  lemma AllAtOnceRefusal(s: Service, op: Op, n: nat)
    requires op.AllAtOnce?
    ensures op.items == [] ==> Step(s, op) == (s, Failure(-614))
    ensures n < |op.items| && AllPrintable(op.items[..n]) && !AllPrintable([op.items[n]]) ==>
              var reply := Step(s, op).1;
              && reply.Failure?
              && match op.items[n] case NotAString => reply.err == -610 case Path(_, check) => (check, reply.err) in CHECK_ERRORS
  {
    var s1 := AllAtOnceCases(s, op);
    if n < |op.items| && AllPrintable(op.items[..n]) && !AllPrintable([op.items[n]]) { FirstBadItem(op.items, n); }
    hide Step, Remove, FirstItemError, Joined, AllPrintable;
  }

  // ----------------------------------------------------------------------- whole runs

  lemma FilesStep(s: Service, op: Op, id: int)
    requires TableInv(s) && id in s.table
    ensures id in Step(s, op).0.table
    ensures Step(s, op).0.table[id].files == s.table[id].files + if Takes(s, op, id) then [op.path] else []
  {
    if op.AddFile? {
      AddFileOutcome(s, op);
      if Takes(s, op, op.jobId) { AddFileEffect(s, op); }
      hide Step;
    } else {
      StepUnpaged(s, op, id);
      hide Step, TableInv;
    }
  }

  /** The files a job is offered and takes along a run, in order. */
  function Taken(s: Service, ops: seq<Op>, id: int): seq<string>
    decreases |ops|
  {
    if ops == [] then []
    else (if Takes(s, ops[0], id) then [ops[0].path] else []) + Taken(Step(s, ops[0]).0, ops[1..], id)
  }

  /** A job holds exactly the files it held before and those it took since. */
  lemma {:induction false} FilesAreThoseTaken(s: Service, ops: seq<Op>, id: int)
    requires TableInv(s) && id in s.table
    ensures id in Run(s, ops).table && Run(s, ops).table[id].files == s.table[id].files + Taken(s, ops, id)
    decreases |ops|
  {
    if ops != [] {
      hide Step, TableInv, Takes;
      FilesStep(s, ops[0], id);
      TableStep(s, ops[0]);
      var s' := Step(s, ops[0]).0;
      FilesAreThoseTaken(s', ops[1..], id);
      Associate(s.table[id].files, if Takes(s, ops[0], id) then [ops[0].path] else [], Taken(s', ops[1..], id));
    }
  }

  /** op offers this path and finds a printable file there. */
  predicate Offers(op: Op, path: string) {
    || (op.AddFile? && op.path == path && op.check.Printable?)
    || (op.AllAtOnce? && Path(path, Printable) in op.items)
  }

  /** The files of a job that is new after a step. */
  lemma NewFilesStep(s: Service, op: Op, id: int, path: string)
    requires TableInv(s) && id in Step(s, op).0.table && path in Step(s, op).0.table[id].files
    ensures Offers(op, path) || (id in s.table && path in s.table[id].files)
  {
    if id in s.table {
      FilesStep(s, op, id);
      hide Step, TableInv;
    } else if op.AllAtOnce? {
      AllAtOnceFiles(s, op);
      TableStep(s, op);
      AllAtOnceKeys(s, op, id);
      hide Step;
      var k :| 0 <= k < |op.items| && Step(s, op).0.table[id].files[k] == path;
      assert op.items[k] == Path(path, Printable);
    } else {
      OthersAddNoJob(s, op, id);
    }
  }

  lemma AllAtOnceKeys(s: Service, op: Op, id: int)
    requires TableInv(s) && op.AllAtOnce? && id in Step(s, op).0.table && id !in s.table
    ensures id == s.nextId
  {
    if id != s.nextId { AllAtOnceElsewhere(s, op, id); }
  }

  lemma OthersAddNoJob(s: Service, op: Op, id: int)
    requires !op.AllAtOnce? && id in Step(s, op).0.table && id !in s.table
    ensures op.OpenJob? && Step(s, op).0.table[id].files == []
  {
    hide StateEvent, Edited, TempPath, InitialParams, SubmissionOf, PollJob, PollEvents;
  }

  /** Every file of every job of every run was offered to the service and found printable. */
  lemma {:induction false} EveryFileChecked(s: Service, ops: seq<Op>, id: int, path: string)
    requires TableInv(s) && id in Run(s, ops).table && path in Run(s, ops).table[id].files
    ensures (exists k :: 0 <= k < |ops| && Offers(ops[k], path)) || (id in s.table && path in s.table[id].files)
    decreases |ops|
  {
    if ops != [] {
      hide Step, TableInv, Offers;
      TableStep(s, ops[0]);
      var s' := Step(s, ops[0]).0;
      EveryFileChecked(s', ops[1..], id, path);
      if k :| 0 <= k < |ops| - 1 && Offers(ops[1..][k], path) {
        assert Offers(ops[k + 1], path);
      } else {
        NewFilesStep(s, ops[0], id, path);
      }
    }
  }
}
