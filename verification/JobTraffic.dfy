/** The calls CUPS has seen over a whole run: nothing but queries, whole submissions and cancellations of submitted jobs. */
module JobTraffic {
  import opened Prelude
  import opened CupsOptions
  import opened CupsSubmit
  import opened EditParams
  import opened SpoolPaths
  import opened SubmitProtocol
  import opened JobModel
  import opened JobSteps
  import opened JobInvariants
  import opened JobHistory

  // ------------------------------------------------------------ the traffic, in blocks

  datatype Block =
    | Asked(printer: string)
    | Sent(id: int)          // the submission on record for this job, from capability query to last call
    | Withdrawn(id: int)     // the cancellation of the job CUPS made for it

  ghost predicate Known(subs: map<int, Submission>, b: Block) {
    match b
    case Asked(_) => true
    case Sent(id) => id in subs && subs[id].files != []
    case Withdrawn(id) => id in subs && subs[id].Result().Submitted?
  }

  ghost function BlockCalls(subs: map<int, Submission>, b: Block): seq<Call>
    requires Known(subs, b)
  {
    match b
    case Asked(printer) => [QueryCaps(printer)]
    case Sent(id) => [QueryCaps(subs[id].printer)] + subs[id].Calls()
    case Withdrawn(id) => [CancelJob(subs[id].printer, subs[id].Result().cupsId)]
  }

  ghost function Traffic(subs: map<int, Submission>, blocks: seq<Block>): seq<Call>
    requires forall b :: b in blocks ==> Known(subs, b)
  {
    if blocks == [] then []
    else Traffic(subs, blocks[..|blocks| - 1]) + BlockCalls(subs, blocks[|blocks| - 1])
  }

  /** Every submission on record occurs once, and a cancellation only after its submission. */
  ghost predicate InOrder(subs: map<int, Submission>, blocks: seq<Block>) {
    && (forall id :: id in subs ==> Sent(id) in blocks)
    && (forall i, j :: 0 <= i < j < |blocks| && blocks[i].Sent? ==> blocks[i] != blocks[j])
    && (forall j :: 0 <= j < |blocks| && blocks[j].Withdrawn? ==> Sent(blocks[j].id) in blocks[..j])
  }

  ghost predicate Explains(blocks: seq<Block>, subs: map<int, Submission>, cups: seq<Call>) {
    && (forall b :: b in blocks ==> Known(subs, b))
    && cups == Traffic(subs, blocks)
    && InOrder(subs, blocks)
  }

  /** The calls made so far are those of these blocks. */
  ghost predicate TrafficInv(s: Service, blocks: seq<Block>) {
    Creations(s.cups) == |s.submissions| && Explains(blocks, s.submissions, s.cups)
  }

  // ------------------------------------------------- what each operation adds to it

  predicate IsSubmitted(s: Service, id: int) {
    id in s.table && s.table[id].phase.Submitted?
  }

  /** A close of an open job that has files. */
  predicate Hands(s: Service, id: int) {
    id in s.table && s.table[id].phase.Open? && s.table[id].files != []
  }

  /**
   * A cancel of a submitted job withdraws it, a close of an open job with files and an allAtOnce of printable files
   * send one, a capability query asks, and nothing else reaches CUPS.
   */
  function BlocksOf(s: Service, op: Op): seq<Block> {
    match op
    case Cancel(id, _) => if IsSubmitted(s, id) then [Withdrawn(id)] else []
    case Close(id, _, _) => if Hands(s, id) then [Sent(id)] else []
    case AllAtOnce(_, _, _, _, _, items, _, _) => if items != [] && AllPrintable(items) then [Sent(s.nextId)] else []
    case QueryCapabilities(printer) => [Asked(printer)]
    case _ => []
  }

  /** Those of a whole run, one operation after the other. */
  function History(s: Service, ops: seq<Op>): seq<Block>
    decreases |ops|
  {
    if ops == [] then [] else BlocksOf(s, ops[0]) + History(Step(s, ops[0]).0, ops[1..])
  }

  function Creations(t: seq<Call>): nat {
    Count(t, IsCreation)
  }

  // ---------------------------------------------------------------- one more block

  lemma {:induction false} TrafficSame(subs: map<int, Submission>, id: int, sub: Submission, blocks: seq<Block>)
    requires id !in subs && forall b :: b in blocks ==> Known(subs, b)
    ensures forall b :: b in blocks ==> Known(subs[id := sub], b)
    ensures Traffic(subs[id := sub], blocks) == Traffic(subs, blocks)
  {
    if blocks != [] {
      hide SubmitCalls;
      TrafficSame(subs, id, sub, blocks[..|blocks| - 1]);
      assert blocks[|blocks| - 1] in blocks;
    }
  }

  lemma OneMore(subs: map<int, Submission>, cups: seq<Call>, blocks: seq<Block>, b: Block)
    requires Explains(blocks, subs, cups) && Known(subs, b)
    requires b.Withdrawn? ==> Sent(b.id) in blocks
    requires !b.Sent?
    ensures Explains(blocks + [b], subs, cups + BlockCalls(subs, b))
  {
    hide Known, BlockCalls;
    var more := blocks + [b];
    assert more[..|blocks|] == blocks;
    forall j | 0 <= j < |more| && more[j].Withdrawn?
      ensures Sent(more[j].id) in more[..j]
    {
      if j < |blocks| { assert more[..j] == blocks[..j]; }
    }
  }

  lemma OneMoreSubmission(subs: map<int, Submission>, cups: seq<Call>, blocks: seq<Block>, id: int, sub: Submission)
    requires Explains(blocks, subs, cups) && id !in subs && sub.files != []
    ensures Explains(blocks + [Sent(id)], subs[id := sub], cups + [QueryCaps(sub.printer)] + sub.Calls())
  {
    TrafficSame(subs, id, sub, blocks);
    SentNotYet(subs, blocks, id);
    SentInOrder(subs, blocks, id, sub);
    hide SubmitCalls, Known, InOrder;
    var more := blocks + [Sent(id)];
    assert Known(subs[id := sub], Sent(id)) by { SentIsKnown(subs, id, sub); }
    assert more[..|blocks|] == blocks;
    Associate(cups, [QueryCaps(sub.printer)], sub.Calls());
  }

  lemma SentInOrder(subs: map<int, Submission>, blocks: seq<Block>, id: int, sub: Submission)
    requires InOrder(subs, blocks) && Sent(id) !in blocks
    ensures InOrder(subs[id := sub], blocks + [Sent(id)])
  {
    var more := blocks + [Sent(id)];
    forall k | k in subs[id := sub]
      ensures Sent(k) in more
    {
      if k == id { assert more[|blocks|] == Sent(id); }
    }
    forall j | 0 <= j < |more| && more[j].Withdrawn?
      ensures Sent(more[j].id) in more[..j]
    {
      assert more[..j] == blocks[..j];
    }
  }

  lemma SentNotYet(subs: map<int, Submission>, blocks: seq<Block>, id: int)
    requires id !in subs && forall b :: b in blocks ==> Known(subs, b)
    ensures Sent(id) !in blocks
  {
    forall b | b in blocks
      ensures b != Sent(id)
    {
      assert Known(subs, b);
    }
  }

  lemma SentIsKnown(subs: map<int, Submission>, id: int, sub: Submission)
    requires sub.files != []
    ensures Known(subs[id := sub], Sent(id))
  {}

  // ------------------------------------------------------------------------- steps

  lemma NothingMore(s: Service, s': Service, blocks: seq<Block>)
    requires TrafficInv(s, blocks) && s'.cups == s.cups && s'.submissions == s.submissions
    ensures TrafficInv(s', blocks + [])
  {
    assert blocks + [] == blocks;
  }

  lemma QueryTraffic(s: Service, blocks: seq<Block>, printer: string)
    requires TrafficInv(s, blocks)
    ensures TrafficInv(s.(cups := s.cups + [QueryCaps(printer)]), blocks + [Asked(printer)])
  {
    hide Explains, Count;
    OneMore(s.submissions, s.cups, blocks, Asked(printer));
    CountConcat(s.cups, [QueryCaps(printer)], IsCreation);
    NoCreation(QueryCaps(printer));
  }

  lemma NoCreation(c: Call)
    requires !c.CreateJob?
    ensures Count([c], IsCreation) == 0
  {}

  lemma CancelTraffic(s: Service, s': Service, blocks: seq<Block>, id: int)
    requires TrafficInv(s, blocks) && id in s.submissions && s.submissions[id].Result().Submitted?
    requires s'.submissions == s.submissions
    requires s'.cups == s.cups + [CancelJob(s.submissions[id].printer, s.submissions[id].Result().cupsId)]
    ensures TrafficInv(s', blocks + [Withdrawn(id)])
  {
    hide Count, SubmitCalls, Traffic;
    OneMore(s.submissions, s.cups, blocks, Withdrawn(id));
    var c := CancelJob(s.submissions[id].printer, s.submissions[id].Result().cupsId);
    CountConcat(s.cups, [c], IsCreation);
    NoCreation(c);
  }

  lemma SubmissionTraffic(s: Service, s': Service, blocks: seq<Block>, id: int, sub: Submission)
    requires TrafficInv(s, blocks) && id !in s.submissions && sub.files != []
    requires s'.submissions == s.submissions[id := sub]
    requires s'.cups == s.cups + [QueryCaps(sub.printer)] + sub.Calls()
    ensures TrafficInv(s', blocks + [Sent(id)])
  {
    hide Explains, Count, SubmitCalls;
    OneMoreSubmission(s.submissions, s.cups, blocks, id, sub);
    OneCreation(sub.printer, Some(sub.title), sub.files, sub.params, sub.world);
    CountConcat(s.cups, [QueryCaps(sub.printer)], IsCreation);
    NoCreation(QueryCaps(sub.printer));
    CountConcat(s.cups + [QueryCaps(sub.printer)], sub.Calls(), IsCreation);
    assert s'.submissions.Keys == s.submissions.Keys + {id};
  }

  lemma SubmitTraffic(s: Service, blocks: seq<Block>, id: int, maxResolution: Option<int>, w: World)
    requires TrafficInv(s, blocks) && id in s.table && id !in s.submissions && s.table[id].files != []
    ensures TrafficInv(SubmitJob(s, id, maxResolution, w).0, blocks + [Sent(id)])
  {
    hide SubmissionOf, TrafficInv, StateEvent, SubmitCalls;
    SubmissionFiles(s.table[id], maxResolution, w);
    SubmissionTraffic(s, SubmitJob(s, id, maxResolution, w).0, blocks, id, SubmissionOf(s.table[id], maxResolution, w));
  }

  lemma SubmissionFiles(job: Job, maxResolution: Option<int>, w: World)
    ensures SubmissionOf(job, maxResolution, w).files == job.files
    ensures SubmissionOf(job, maxResolution, w).printer == job.printerId
  {}

  lemma AllAtOnceTraffic(s: Service, blocks: seq<Block>, op: Op)
    requires TableInv(s) && SubmissionInv(s) && TrafficInv(s, blocks) && op.AllAtOnce?
    ensures TrafficInv(Step(s, op).0, blocks + BlocksOf(s, op))
  {
    var s1 := AllAtOnceCases(s, op);
    GoodItems(op.items);
    hide Step, Filled, Opened, SubmitFilled, FirstItemError, JobOk, Explains, Count, Matches, IsNew, JobModel.Freed, AllPrintable;
    if op.items != [] && FirstItemError(op.items).None? {
      SubmitFilledTraffic(s1, blocks, s.nextId, op.maxResolution, op.world);
    } else {
      NothingMore(s, Step(s, op).0, blocks);
    }
  }

  lemma SubmitFilledTraffic(s: Service, blocks: seq<Block>, id: int, maxResolution: Option<int>, w: World)
    requires TrafficInv(s, blocks) && id in s.table && id !in s.submissions && s.table[id].files != []
    ensures TrafficInv(SubmitFilled(s, id, maxResolution, w).0, blocks + [Sent(id)])
  {
    var s1, err, cupsId, e := SubmitFilledCases(s, id, maxResolution, w);
    SubmitTraffic(s, blocks, id, maxResolution, w);
    hide SubmitFilled, SubmitJob, Queued, JobModel.Freed, Explains, Count;
  }

  lemma CancelStepTraffic(s: Service, blocks: seq<Block>, id: int, cupsCancels: bool)
    requires TableInv(s) && SubmissionInv(s) && TrafficInv(s, blocks)
    ensures TrafficInv(StepCancel(s, id, cupsCancels).0, blocks + BlocksOf(s, Cancel(id, cupsCancels)))
  {
    hide StateEvent, Explains, Count, SubmitCalls, ValidParams;
    if IsSubmitted(s, id) {
      assert Matches(s.table[id], s.submissions[id]);
      CancelTraffic(s, StepCancel(s, id, cupsCancels).0, blocks, id);
    } else {
      NothingMore(s, StepCancel(s, id, cupsCancels).0, blocks);
    }
  }

  lemma CloseTraffic(s: Service, blocks: seq<Block>, id: int, maxResolution: Option<int>, w: World)
    requires TableInv(s) && SubmissionInv(s) && TrafficInv(s, blocks)
    ensures TrafficInv(StepClose(s, id, maxResolution, w).0, blocks + BlocksOf(s, Close(id, maxResolution, w)))
  {
    hide JobOk, StateEvent, Explains, Count, SubmitCalls, Matches, SubmitJob;
    if Hands(s, id) {
      SubmitTraffic(s, blocks, id, maxResolution, w);
    } else {
      NothingMore(s, StepClose(s, id, maxResolution, w).0, blocks);
    }
  }

  lemma TrafficStep(s: Service, blocks: seq<Block>, op: Op)
    requires TableInv(s) && SubmissionInv(s) && TrafficInv(s, blocks)
    ensures TrafficInv(Step(s, op).0, blocks + BlocksOf(s, op))
  {
    hide JobOk, StepClose, StepCancel, StepAllAtOnce, StateEvent, Explains, Count, Matches, Edited, TempPath;
    match op
    case AllAtOnce(_, _, _, _, _, _, _, _) => AllAtOnceTraffic(s, blocks, op);
    case QueryCapabilities(printer) => QueryTraffic(s, blocks, printer);
    case Close(id, maxResolution, w) => CloseTraffic(s, blocks, id, maxResolution, w);
    case Cancel(id, cupsCancels) => CancelStepTraffic(s, blocks, id, cupsCancels);
    case _ => NothingMore(s, Step(s, op).0, blocks);
  }

  lemma {:induction false} TrafficRun(s: Service, blocks: seq<Block>, ops: seq<Op>)
    requires TableInv(s) && SubmissionInv(s) && TrafficInv(s, blocks)
    ensures TrafficInv(Run(s, ops), blocks + History(s, ops))
    decreases |ops|
  {
    if ops == [] {
      assert blocks + [] == blocks;
    } else {
      hide Step, TableInv, SubmissionInv, TrafficInv, BlocksOf;
      TableStep(s, ops[0]);
      SubmissionStep(s, ops[0]);
      TrafficStep(s, blocks, ops[0]);
      var s', first := Step(s, ops[0]).0, BlocksOf(s, ops[0]);
      TrafficRun(s', blocks + first, ops[1..]);
      Associate(blocks, first, History(s', ops[1..]));
    }
  }

  /**
   * In every run all CUPS sees is what its operations say, in their order: a capability query where one is asked
   * for, the exact calls of one submission at each close of an open job with files and each allAtOnce of printable
   * files, and one cancellation, of the job CUPS accepted, at each cancel of a submitted job. It is asked to create
   * exactly one job for each submission on record, and every submitted job has its record.
   */
  lemma HandedOverOnce(clock: nat, ops: seq<Op>)
    ensures var s := Run(InitialService(clock), ops);
            && Explains(History(InitialService(clock), ops), s.submissions, s.cups)
            && Creations(s.cups) == |s.submissions|
            && (forall id :: id in s.table && s.table[id].phase.Submitted? ==>
                  id in s.submissions && Matches(s.table[id], s.submissions[id]))
  {
    var s0 := InitialService(clock);
    InitialTableInv(clock);
    NothingYet(clock);
    hide Run, Explains, Matches, Creations, History, JobOk, InitialService, TableInv, SubmissionInv;
    TableRun(s0, ops);
    RunLater(s0, ops);
    TrafficRun(s0, [], ops);
    assert [] + History(s0, ops) == History(s0, ops);
    SubmittedOnRecord(Run(s0, ops));
  }

  lemma SubmittedOnRecord(s: Service)
    requires TableInv(s) && SubmissionInv(s)
    ensures forall id :: id in s.table && s.table[id].phase.Submitted? ==>
              id in s.submissions && Matches(s.table[id], s.submissions[id])
  {
    hide Matches, ValidParams;
  }

  lemma NothingYet(clock: nat)
    ensures SubmissionInv(InitialService(clock)) && TrafficInv(InitialService(clock), [])
  {}

  // ------------------------------------------------------------------ cancellations

  /**
   * A cancel reaches CUPS exactly if the job is submitted, and then asks for the job CUPS made for it. It fails
   * exactly if there is no such job, or CUPS does not grant it, and otherwise the job is cancelled.
   */
  lemma CancelOutcome(s: Service, id: int, cupsCancels: bool)
    requires TableInv(s)
    ensures var (s', reply) := Step(s, Cancel(id, cupsCancels));
            && s'.cups == s.cups + (if IsSubmitted(s, id) then [CancelJob(s.table[id].printerId, s.table[id].cupsJobId)]
                                    else [])
            && (reply == Failure(-617) <==> id !in s.table)
            && (reply == Failure(-709) <==> IsSubmitted(s, id) && !cupsCancels)
            && (reply.Failure? ==> reply.err in {-617, -709} && s'.table == s.table && s'.streams == s.streams)
            && (!reply.Failure? ==> reply == Success && id in s.table
                                    && s'.table == s.table[id := s.table[id].(phase := JobModel.Phase.Cancelled)]
                                    && exists times :: s'.streams == Post(s.streams, id, StateChange("DONE", Some("Cancelled"), times)))
            && s' == s.(cups := s'.cups, table := s'.table, streams := s'.streams)
  {
    hide ValidParams;
    if id in s.table {
      var e := StateEvent(s.table[id], "DONE", Some("Cancelled"), [], s.clock);
      assert e == StateChange("DONE", Some("Cancelled"), e.detail);
    }
  }

  /** The cancels of a job made while it was submitted. */
  function Withdrawals(s: Service, ops: seq<Op>, id: int): nat
    decreases |ops|
  {
    if ops == [] then 0
    else
      (if ops[0].Cancel? && ops[0].jobId == id && IsSubmitted(s, id) then 1 else 0)
      + Withdrawals(Step(s, ops[0]).0, ops[1..], id)
  }

  function Occurrences(blocks: seq<Block>, b: Block): nat {
    multiset(blocks)[b]
  }

  /** Over a run the cancellations of a job are those cancels, no more and no fewer. */
  lemma {:induction false} CancelledAsOften(s: Service, ops: seq<Op>, id: int)
    ensures Occurrences(History(s, ops), Withdrawn(id)) == Withdrawals(s, ops, id)
    decreases |ops|
  {
    if ops != [] {
      WithdrawnNow(s, ops[0], id);
      hide Step, BlocksOf, Occurrences;
      var s' := Step(s, ops[0]).0;
      CancelledAsOften(s', ops[1..], id);
      OccurrencesConcat(BlocksOf(s, ops[0]), History(s', ops[1..]), Withdrawn(id));
    }
  }

  lemma WithdrawnNow(s: Service, op: Op, id: int)
    ensures Occurrences(BlocksOf(s, op), Withdrawn(id)) == if op.Cancel? && op.jobId == id && IsSubmitted(s, id) then 1 else 0
  {}

  lemma OccurrencesConcat(a: seq<Block>, b: seq<Block>, x: Block)
    ensures Occurrences(a + b, x) == Occurrences(a, x) + Occurrences(b, x)
  {}
}
