/** What edits of a job's parameters leave behind over a whole run. */
module JobEdits {
  import opened Prelude
  import opened PrintErrors
  import opened CupsSubmit
  import opened SpoolPaths
  import opened EditParams
  import opened JobModel
  import opened JobInvariants
  import opened JobHistory

  predicate EditsJob(op: Op, id: int) {
    op.Edit? && op.jobId == id
  }

  /** Only its own edits change the parameters of a job, and they do what Edited says if it is open. */
  lemma ParamsStep(s: Service, op: Op, id: int)
    requires TableInv(s) && id in s.table
    ensures var s' := Step(s, op).0;
            && id in s'.table
            && s'.table[id].params == if EditsJob(op, id) && s.table[id].phase.Open? then Edited(s.table[id].params, op.edits).0
                                      else s.table[id].params
  {
    hide JobOk, Edited, StepAllAtOnce, StepClose, StepCancel, StepAddFile, StepNewTempFile;
    match op
    case AllAtOnce(_, _, _, _, _, _, _, _) => AllAtOnceElsewhere(s, op, id);
    case Close(k, maxResolution, w) => CloseKeepsParams(s, k, maxResolution, w, id);
    case Cancel(k, cupsCancels) => CancelKeepsParams(s, k, cupsCancels, id);
    case AddFile(k, path, check, page, total) => AddFileKeepsParams(s, k, path, check, page, total, id);
    case NewTempFile(k, ext, size, created, reserved) => NewTempFileKeepsParams(s, k, ext, size, created, reserved, id);
    case _ =>
  }

  ghost predicate KeepsParams(s: Service, s': Service, id: int) {
    id in s.table && id in s'.table && s'.table[id].params == s.table[id].params
  }

  lemma CloseKeepsParams(s: Service, k: int, maxResolution: Option<int>, w: World, id: int)
    requires id in s.table
    ensures KeepsParams(s, StepClose(s, k, maxResolution, w).0, id)
  {
    hide SubmitJob, StateEvent;
    if k in s.table { SubmitKeepsParams(s, k, maxResolution, w, id); }
  }

  lemma CancelKeepsParams(s: Service, k: int, cupsCancels: bool, id: int)
    requires id in s.table
    ensures KeepsParams(s, StepCancel(s, k, cupsCancels).0, id)
  {
    hide StateEvent;
  }

  lemma AddFileKeepsParams(s: Service, k: int, path: string, check: FileCheck, page: Option<int>, total: Option<int>, id: int)
    requires id in s.table
    ensures KeepsParams(s, StepAddFile(s, k, path, check, page, total).0, id)
  {}

  lemma NewTempFileKeepsParams(s: Service, k: int, ext: string, size: int, created: bool, reserved: bool, id: int)
    requires id in s.table
    ensures KeepsParams(s, StepNewTempFile(s, k, ext, size, created, reserved).0, id)
  {
    hide TempPath;
  }

  lemma SubmitKeepsParams(s: Service, k: int, maxResolution: Option<int>, w: World, id: int)
    requires k in s.table && id in s.table
    ensures var s' := SubmitJob(s, k, maxResolution, w).0;
            id in s'.table && k in s'.table && s'.table[id].params == s.table[id].params
  {
    hide SubmitCalls, StateEvent;
  }

  /** Once a job has insets set it has them set for good. */
  lemma {:induction false} InsetsStaySet(s: Service, ops: seq<Op>, id: int)
    requires TableInv(s) && id in s.table && s.table[id].params.insetsSet
    ensures id in Run(s, ops).table && Run(s, ops).table[id].params.insetsSet
    decreases |ops|
  {
    if ops != [] {
      ParamsStep(s, ops[0], id);
      if EditsJob(ops[0], id) { StuckEdit(s.table[id].params, ops[0].edits); }
      TableStep(s, ops[0]);
      hide Step, TableInv, Edited;
      InsetsStaySet(Step(s, ops[0]).0, ops[1..], id);
    }
  }

  ghost predicate NeverReleased(ops: seq<Op>, id: int) {
    forall k :: 0 <= k < |ops| ==> !(EditsJob(ops[k], id) && Releases(ops[k].edits))
  }

  lemma {:induction false} StuckRun(s: Service, ops: seq<Op>, id: int)
    requires TableInv(s) && id in s.table && Stuck(s.table[id].params) && NeverReleased(ops, id)
    ensures TableInv(Run(s, ops)) && id in Run(s, ops).table && Stuck(Run(s, ops).table[id].params)
    decreases |ops|
  {
    if ops != [] {
      ParamsStep(s, ops[0], id);
      if EditsJob(ops[0], id) { StuckEdit(s.table[id].params, ops[0].edits); }
      TableStep(s, ops[0]);
      hide Step, TableInv, Edited, Releases;
      assert forall k :: 0 <= k < |ops| - 1 ==> ops[1..][k] == ops[k + 1];
      StuckRun(Step(s, ops[0]).0, ops[1..], id);
    }
  }

  /**
   * A job that is borderless with insets set stays so until an acceptable edit turns borderless off. Until then
   * every edit of it fails, and while it is open an acceptable one fails with -602 and still takes full effect;
   * the one that turns borderless off succeeds.
   */
  lemma StuckUntilReleased(s: Service, ops: seq<Op>, id: int, e: Edits)
    requires TableInv(s) && id in s.table && Stuck(s.table[id].params) && NeverReleased(ops, id)
    ensures var r := Run(s, ops);
            && id in r.table && Stuck(r.table[id].params)
            && var (r', reply) := Step(r, Edit(id, e));
               && (reply == Success <==> r.table[id].phase.Open? && Releases(e))
               && (r.table[id].phase.Open? && FirstRefused(e) == 8 && !Releases(e) ==>
                     reply == Failure(INSETS_WITH_BORDERLESS) && id in r'.table
                     && r'.table[id].params == Overlay(r.table[id].params, e))
  {
    StuckRun(s, ops, id);
    hide Run, TableInv, Overlay, Releases, FirstRefused;
    var r := Run(s, ops);
    StuckEdit(r.table[id].params, e);
  }
}
