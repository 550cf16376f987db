/** What a submitted job reports, as a function of what CUPS answers over a whole run. */
module JobPolling {
  import opened Prelude
  import ParamMap
  import opened StateReasons
  import opened CupsOptions
  import opened CupsSubmit
  import opened JobModel
  import opened JobInvariants
  import opened JobHistory

  // A printer state with the job status that goes with it.
  type Report = (string, Option<string>)

  /** An answer in webOS terms; a job CUPS no longer knows counts as printed. */
  function Meaning(answer: Option<CupsJobState>): Report {
    match answer case None => ("DONE", Some("Success")) case Some(a) => ParamMap.JobState(a.ippState)
  }

  const CANCELLED: Report := ("DONE", Some("Cancelled"))

  /** What one operation says about a submitted job: a poll what CUPS answers, a granted cancel that it is over. */
  function Answer(op: Op, id: int): seq<Report> {
    if op.Poll? then [Meaning(op.answers(id))]
    else if op.Cancel? && op.jobId == id && op.cupsCancels then [CANCELLED]
    else []
  }

  function Answers(ops: seq<Op>, id: int): seq<Report> {
    if ops == [] then [] else Answer(ops[0], id) + Answers(ops[1..], id)
  }

  predicate Cancels(op: Op, id: int) {
    op.Cancel? && op.jobId == id
  }

  function CancelCount(ops: seq<Op>, id: int): nat {
    if ops == [] then 0 else (if Cancels(ops[0], id) then 1 else 0) + CancelCount(ops[1..], id)
  }

  predicate Ends(op: Op, id: int) {
    exists x :: x in Answer(op, id) && x.0 == "DONE"
  }

  /** The cancels of a job that come after the operation that ended it. */
  function LateCancels(ops: seq<Op>, id: int): nat {
    if ops == [] then 0
    else if Ends(ops[0], id) then CancelCount(ops[1..], id)
    else LateCancels(ops[1..], id)
  }

  /** One more report for each of them. */
  function Copies(k: nat): seq<Report> {
    if k == 0 then [] else [CANCELLED] + Copies(k - 1)
  }

  /** Everything up to the first terminal report, that one included. */
  function UpToDone(xs: seq<Report>): seq<Report> {
    if xs == [] then [] else if xs[0].0 == "DONE" then [xs[0]] else [xs[0]] + UpToDone(xs[1..])
  }

  /** Runs of equal reports shortened to one. */
  function Unstuttered(xs: seq<Report>): seq<Report> {
    if |xs| <= 1 then xs
    else if xs[0] == xs[1] then Unstuttered(xs[1..])
    else [xs[0]] + Unstuttered(xs[1..])
  }

  /** The reports among status events. */
  function Reports(t: seq<Event>): seq<Report> {
    if t == [] then [] else ReportsOne(t[0]) + Reports(t[1..])
  }

  function ReportsOne(e: Event): seq<Report> {
    if e.StateChange? then [(e.printerState, e.jobStatus)] else []
  }

  lemma {:induction false} ReportsConcat(s: seq<Event>, t: seq<Event>)
    ensures Reports(s + t) == Reports(s) + Reports(t)
  {
    if s == [] {
      assert s + t == t;
    } else {
      var first := ReportsOne(s[0]);
      assert (s + t)[0] == s[0] && (s + t)[1..] == s[1..] + t;
      ReportsConcat(s[1..], t);
      hide ReportsOne;
      Associate(first, Reports(s[1..]), Reports(t));
    }
  }

  /** How the unstuttered form grows with one more answer in front. */
  lemma UnstutteredStep(last: Report, x: Report, xs: seq<Report>)
    requires last.0 != "DONE"
    ensures Unstuttered([last] + UpToDone([x] + xs))
            == if x.0 == "DONE" then [last, x]
               else if x == last then Unstuttered([last] + UpToDone(xs))
               else [last] + Unstuttered([x] + UpToDone(xs))
  {
    assert ([x] + xs)[1..] == xs;
    var all := [last] + UpToDone([x] + xs);
    assert all[1..] == UpToDone([x] + xs);
    if x.0 == "DONE" {
      assert all == [last, x] && all[1..] == [x];
    } else {
      assert UpToDone([x] + xs) == [x] + UpToDone(xs);
    }
  }

  /** A tick, for one submitted job: silence if nothing changed, otherwise one report. */
  lemma PollReports(job: Job, answer: Option<CupsJobState>, now: nat)
    requires JobOk(job) && job.phase.Submitted?
    ensures var (job', events) := PollJob(job, answer, now);
            var last, x := (job.lastPrinterState.value, None), Meaning(answer);
            if x == last then job' == job && events == []
            else Reports(events) == [x]
                 && if x.0 == "DONE" then job'.phase.Done? else job'.phase.Submitted? && job'.lastPrinterState == Some(x.0)
    ensures Meaning(answer).0 != "DONE" ==> Meaning(answer).1.None?
  {
    hide BlockedReasons;
    var events := PollJob(job, answer, now).1;
    if events != [] { assert events == [events[0]] && events[1..] == []; }
  }

  lemma PolledJob(s: Service, op: Op, id: int)
    requires TableInv(s) && id in s.table && op.Poll?
    ensures var s1 := Step(s, op).0;
            id in s1.table && s1.table[id] == PollJob(s.table[id], op.answers(id), s.clock).0
            && StreamOf(s1.streams, id) == StreamOf(s.streams, id) + PollJob(s.table[id], op.answers(id), s.clock).1
  {
    hide PollJob, JobOk;
  }

  // ------------------------------------------------------------ after the end of a job

  ghost predicate Ended(s: Service, id: int) {
    id in s.table && (s.table[id].phase.Done? || s.table[id].phase.Cancelled?)
  }

  /** A cancel, for a job that has ended: it posts one more DONE, whatever CUPS would say. */
  lemma CancelEnded(s: Service, op: Op, id: int)
    requires Ended(s, id) && Cancels(op, id)
    ensures Ended(Step(s, op).0, id)
    ensures StreamOf(Step(s, op).0.streams, id)
            == StreamOf(s.streams, id) + [StateEvent(s.table[id], "DONE", Some("Cancelled"), [], s.clock)]
  {
    hide StateEvent;
  }

  /** Any operation but a cancel of it leaves an ended job's stream alone. */
  lemma RestEnded(s: Service, op: Op, id: int)
    requires TableInv(s) && Ended(s, id) && !Cancels(op, id)
    ensures Ended(Step(s, op).0, id) && StreamOf(Step(s, op).0.streams, id) == StreamOf(s.streams, id)
  {
    ClosedJobsRest(s, op, id);
    hide Step, TableInv;
    assert Step(s, op).0.table[id].phase == Step(s, op).0.table[id].(tempFiles := s.table[id].tempFiles).phase;
  }

  /** The stream of an ended job grows exactly at a cancel of it, by exactly one DONE with status Cancelled. */
  lemma EndedStreamGrows(s: Service, op: Op, id: int)
    requires TableInv(s) && Ended(s, id)
    ensures var t, t' := StreamOf(s.streams, id), StreamOf(Step(s, op).0.streams, id);
            && (t' != t <==> Cancels(op, id))
            && (t' != t ==> t' == t + [StateEvent(s.table[id], "DONE", Some("Cancelled"), [], s.clock)])
  {
    hide Step, TableInv, StateEvent;
    if Cancels(op, id) {
      CancelEnded(s, op, id);
      assert |StreamOf(Step(s, op).0.streams, id)| == |StreamOf(s.streams, id)| + 1;
    } else {
      RestEnded(s, op, id);
    }
  }

  /** Over any run, an ended job reports one DONE with status Cancelled for each cancel of it, and nothing else. */
  lemma {:induction false} EndedReports(s: Service, ops: seq<Op>, id: int) returns (tail: seq<Event>)
    requires TableInv(s) && Ended(s, id)
    ensures StreamOf(Run(s, ops).streams, id) == StreamOf(s.streams, id) + tail
    ensures Reports(tail) == Copies(CancelCount(ops, id))
    decreases |ops|
  {
    if ops == [] {
      tail := [];
    } else {
      EndedHeads(s, ops, id);
      TableStep(s, ops[0]);
      hide *;
      var s1 := Step(s, ops[0]).0;
      if Cancels(ops[0], id) {
        CancelEnded(s, ops[0], id);
        EndedInTable(s, id);
        var e := StateEvent(s.table[id], "DONE", Some("Cancelled"), [], s.clock);
        var more := EndedReports(s1, ops[1..], id);
        tail := [e] + more;
        CancelledReport(s.table[id], s.clock);
        ReportsConcat([e], more);
        Associate(StreamOf(s.streams, id), [e], more);
      } else {
        RestEnded(s, ops[0], id);
        tail := EndedReports(s1, ops[1..], id);
      }
    }
  }

  lemma EndedHeads(s: Service, ops: seq<Op>, id: int)
    requires ops != []
    ensures Run(s, ops) == Run(Step(s, ops[0]).0, ops[1..])
    ensures Copies(CancelCount(ops, id))
            == if Cancels(ops[0], id) then [CANCELLED] + Copies(CancelCount(ops[1..], id))
               else Copies(CancelCount(ops[1..], id))
  {
    hide Step;
  }

  lemma EndedInTable(s: Service, id: int)
    requires Ended(s, id)
    ensures id in s.table
  {}

  lemma CancelledReport(job: Job, now: int)
    ensures Reports([StateEvent(job, "DONE", Some("Cancelled"), [], now)]) == [CANCELLED]
  {
    var e := StateEvent(job, "DONE", Some("Cancelled"), [], now);
    assert [e][1..] == [];
  }

  /** So "at most one DONE per job" is false: a job opened, closed without files and cancelled reports two. */
  lemma TwoDone(clock: nat)
    ensures var ops := [OpenJob("p", "d", "a", true), Close(1, None, NO_ANSWERS), Cancel(1, true)];
            Reports(StreamOf(Run(InitialService(clock), ops).streams, 1)) == [("DONE", Some("Success")), CANCELLED]
  {
    var open, close, cancel := OpenJob("p", "d", "a", true), Close(1, None, NO_ANSWERS), Cancel(1, true);
    var ops := [open, close, cancel];
    var s0 := InitialService(clock);
    var s1 := Step(s0, open).0;
    var s2 := Step(s1, close).0;
    assert ops[1..] == [close, cancel] && ops[1..][1..] == [cancel] && [cancel][1..] == [];
    assert Run(s0, ops) == Run(s2, [cancel]) == Step(s2, cancel).0;
    var e := StateEvent(s1.table[1], "DONE", Some("Success"), [], clock);
    assert StreamOf(s2.streams, 1) == [e];
    CancelEnded(s2, cancel, 1);
    CancelledReport(s2.table[1], s2.clock);
    ReportsConcat([e], [StateEvent(s2.table[1], "DONE", Some("Cancelled"), [], s2.clock)]);
    assert [e][1..] == [];
  }

  // A server that refuses every job.
  const NO_ANSWERS: World := World(0, _ => DocAnswers(None, false, false, [], _ => false, FinishFailed))

  // -------------------------------------------------------------- while it is submitted

  /**
   * A submitted job reports, over any run with anything else going on, exactly the changes in what CUPS answers
   * about it, up to and including the first terminal answer, disappearance or granted cancel, and after that one
   * DONE for each further cancel.
   */
  lemma {:induction false} ReportsFollowCups(s: Service, ops: seq<Op>, id: int) returns (tail: seq<Event>)
    requires TableInv(s) && id in s.table && s.table[id].phase.Submitted?
    ensures StreamOf(Run(s, ops).streams, id) == StreamOf(s.streams, id) + tail
    ensures var last := (s.table[id].lastPrinterState.value, None);
            [last] + Reports(tail) == Unstuttered([last] + UpToDone(Answers(ops, id))) + Copies(LateCancels(ops, id))
    decreases |ops|
  {
    var last: Report := (s.table[id].lastPrinterState.value, None);
    if ops == [] {
      tail := [];
      assert Unstuttered([last] + UpToDone([])) == [last];
    } else if ops[0].Poll? {
      tail := ReportsAfterPoll(s, ops, id);
    } else if Cancels(ops[0], id) && ops[0].cupsCancels {
      tail := ReportsAfterCancel(s, ops, id);
    } else {
      QuietStep(s, ops[0], id);
      TableStep(s, ops[0]);
      hide Step, TableInv;
      var s1 := Step(s, ops[0]).0;
      tail := ReportsFollowCups(s1, ops[1..], id);
      NoAnswer(ops, id);
    }
  }

  lemma NoAnswer(ops: seq<Op>, id: int)
    requires ops != [] && !ops[0].Poll? && !(Cancels(ops[0], id) && ops[0].cupsCancels)
    ensures Answers(ops, id) == Answers(ops[1..], id) && LateCancels(ops, id) == LateCancels(ops[1..], id)
  {}

  /** Anything but a poll or a granted cancel, for a submitted job; a cancel CUPS refuses posts nothing. */
  lemma QuietStep(s: Service, op: Op, id: int)
    requires TableInv(s) && id in s.table && s.table[id].phase.Submitted?
    requires !op.Poll? && !(Cancels(op, id) && op.cupsCancels)
    ensures var s1 := Step(s, op).0;
            && id in s1.table && s1.table[id].phase.Submitted? && StreamOf(s1.streams, id) == StreamOf(s.streams, id)
            && s1.table[id].lastPrinterState == s.table[id].lastPrinterState
  {
    if !Cancels(op, id) {
      ClosedJobsRest(s, op, id);
      hide Step, TableInv;
      var job := Step(s, op).0.table[id];
      assert job.phase == job.(tempFiles := s.table[id].tempFiles).phase;
      assert job.lastPrinterState == job.(tempFiles := s.table[id].tempFiles).lastPrinterState;
    } else {
      RefusedCancelQuiet(s, op, id);
    }
  }

  lemma RefusedCancelQuiet(s: Service, op: Op, id: int)
    requires TableInv(s) && id in s.table && s.table[id].phase.Submitted? && Cancels(op, id) && !op.cupsCancels
    ensures Step(s, op).0.table == s.table && Step(s, op).0.streams == s.streams
  {
    hide StateEvent;
    assert JobOk(s.table[id]);
  }

  lemma {:induction false} ReportsAfterPoll(s: Service, ops: seq<Op>, id: int) returns (tail: seq<Event>)
    requires TableInv(s) && id in s.table && s.table[id].phase.Submitted?
    requires ops != [] && ops[0].Poll?
    ensures StreamOf(Run(s, ops).streams, id) == StreamOf(s.streams, id) + tail
    ensures var last := (s.table[id].lastPrinterState.value, None);
            [last] + Reports(tail) == Unstuttered([last] + UpToDone(Answers(ops, id))) + Copies(LateCancels(ops, id))
    decreases |ops|, 0
  {
    hide *;
    var s1, rest := Step(s, ops[0]).0, ops[1..];
    var events, x := AfterTick(s, ops[0], id);
    var last: Report := (s.table[id].lastPrinterState.value, None);
    Heads(s, ops, id, x);
    UnstutteredStep(last, x, Answers(rest, id));
    var more;
    if x.0 == "DONE" {
      DoneIsEnded(s1, id);
      more := EndedReports(s1, rest, id);
    } else {
      more := ReportsFollowCups(s1, rest, id);
    }
    tail := events + more;
    ReportsConcat(events, more);
    Associate(StreamOf(s.streams, id), events, more);
    Associate([last], Reports(events), Reports(more));
    Associate([last], Unstuttered([x] + UpToDone(Answers(rest, id))), Copies(LateCancels(rest, id)));
  }

  lemma DoneIsEnded(s: Service, id: int)
    requires id in s.table && s.table[id].phase.Done?
    ensures Ended(s, id)
  {}

  lemma ReportsAfterCancel(s: Service, ops: seq<Op>, id: int) returns (tail: seq<Event>)
    requires TableInv(s) && id in s.table && s.table[id].phase.Submitted?
    requires ops != [] && Cancels(ops[0], id) && ops[0].cupsCancels
    ensures StreamOf(Run(s, ops).streams, id) == StreamOf(s.streams, id) + tail
    ensures var last := (s.table[id].lastPrinterState.value, None);
            [last] + Reports(tail) == Unstuttered([last] + UpToDone(Answers(ops, id))) + Copies(LateCancels(ops, id))
  {
    hide *;
    var s1, rest := Step(s, ops[0]).0, ops[1..];
    var e := CancelSubmitted(s, ops[0], id);
    var last: Report := (s.table[id].lastPrinterState.value, None);
    TableStep(s, ops[0]);
    Heads(s, ops, id, CANCELLED);
    UnstutteredStep(last, CANCELLED, Answers(rest, id));
    var more := EndedReports(s1, rest, id);
    tail := [e] + more;
    ReportsConcat([e], more);
    Associate(StreamOf(s.streams, id), [e], more);
    Associate([last], [CANCELLED], Reports(more));
  }

  /** A granted cancel of a submitted job. */
  lemma CancelSubmitted(s: Service, op: Op, id: int) returns (e: Event)
    requires TableInv(s) && id in s.table && s.table[id].phase.Submitted? && Cancels(op, id) && op.cupsCancels
    ensures Ended(Step(s, op).0, id) && s.table[id].lastPrinterState.Some? && s.table[id].lastPrinterState.value != "DONE"
    ensures StreamOf(Step(s, op).0.streams, id) == StreamOf(s.streams, id) + [e] && Reports([e]) == [CANCELLED]
    ensures Answer(op, id) == [CANCELLED] && CANCELLED.0 == "DONE"
  {
    e := StateEvent(s.table[id], "DONE", Some("Cancelled"), [], s.clock);
    CancelledReport(s.table[id], s.clock);
    assert JobOk(s.table[id]);
    hide StateEvent, ValidParams, Reports;
  }

  /** The state after one tick, as one submitted job sees it. */
  lemma AfterTick(s: Service, op: Op, id: int) returns (events: seq<Event>, x: Report)
    requires TableInv(s) && id in s.table && s.table[id].phase.Submitted? && op.Poll?
    ensures var s1 := Step(s, op).0;
            && TableInv(s1) && id in s1.table && Answer(op, id) == [x] && s.table[id].lastPrinterState.Some?
            && s.table[id].lastPrinterState != Some("DONE")
            && StreamOf(s1.streams, id) == StreamOf(s.streams, id) + events
            && if x == (s.table[id].lastPrinterState.value, None) then s1.table[id] == s.table[id] && Reports(events) == []
               else Reports(events) == [x]
                    && if x.0 == "DONE" then s1.table[id].phase.Done?
                       else s1.table[id].phase.Submitted? && s1.table[id].lastPrinterState == Some(x.0) && x.1.None?
  {
    x := Meaning(op.answers(id));
    events := PollJob(s.table[id], op.answers(id), s.clock).1;
    PollReports(s.table[id], op.answers(id), s.clock);
    TableStep(s, op);
    PolledJob(s, op, id);
  }

  lemma Heads(s: Service, ops: seq<Op>, id: int, x: Report)
    requires ops != [] && Answer(ops[0], id) == [x]
    ensures Run(s, ops) == Run(Step(s, ops[0]).0, ops[1..])
    ensures Answers(ops, id) == [x] + Answers(ops[1..], id)
    ensures LateCancels(ops, id) == if x.0 == "DONE" then CancelCount(ops[1..], id) else LateCancels(ops[1..], id)
  {
    hide Step, Meaning;
    assert x in [x];
  }

  // ---------------------------------------------------------- from the start of a job

  const QUEUED: Report := ("QUEUED", None)

  ghost predicate JustQueued(s: Service, id: int) {
    id in s.table && s.table[id].phase.Submitted? && s.table[id].lastPrinterState == Some("QUEUED")
  }

  /** What a job reports once it has been queued. */
  function QueuedReports(ops: seq<Op>, id: int): seq<Report> {
    Unstuttered([QUEUED] + UpToDone(Answers(ops, id))) + Copies(LateCancels(ops, id))
  }

  /**
   * From the close of an open job on: nothing but DONE and later cancels if it had no files or CUPS refused it,
   * otherwise QUEUED, then the changes in what CUPS answers, up to the end of the job, and later cancels.
   */
  lemma ReportsSinceClose(s: Service, close: Op, ops: seq<Op>)
    requires TableInv(s) && close.Close? && close.jobId in s.table && s.table[close.jobId].phase.Open?
    ensures var id := close.jobId;
            Reports(StreamOf(Run(Step(s, close).0, ops).streams, id))
            == Reports(StreamOf(s.streams, id))
               + if s.table[id].files == [] then [("DONE", Some("Success"))] + Copies(CancelCount(ops, id))
                 else if Step(s, close).1.Success? then QueuedReports(ops, id)
                 else [("DONE", Some("Error"))] + Copies(CancelCount(ops, id))
  {
    var id, s1 := close.jobId, Step(s, close).0;
    TableStep(s, close);
    var e := ClosedOnce(s, close);
    hide *;
    ReportsConcat(StreamOf(s.streams, id), [e]);
    if Ended(s1, id) {
      var tail := EndedReports(s1, ops, id);
      ReportsConcat(StreamOf(s.streams, id) + [e], tail);
      Associate(Reports(StreamOf(s.streams, id)), Reports([e]), Reports(tail));
    } else {
      var tail := ReportsFollowCups(s1, ops, id);
      ReportsConcat(StreamOf(s.streams, id) + [e], tail);
      Associate(Reports(StreamOf(s.streams, id)), [QUEUED], Reports(tail));
      QueuedUnfolds(ops, id);
    }
  }

  lemma QueuedUnfolds(ops: seq<Op>, id: int)
    ensures QueuedReports(ops, id) == Unstuttered([("QUEUED", None)] + UpToDone(Answers(ops, id))) + Copies(LateCancels(ops, id))
    ensures QUEUED == ("QUEUED", None)
  {}

  /** The one event a close posts. */
  lemma ClosedOnce(s: Service, close: Op) returns (e: Event)
    requires TableInv(s) && close.Close? && close.jobId in s.table && s.table[close.jobId].phase.Open?
    ensures var id, s1, r := close.jobId, Step(s, close).0, Step(s, close).1;
            && StreamOf(s1.streams, id) == StreamOf(s.streams, id) + [e]
            && (Ended(s1, id) <==> s.table[id].files == [] || !r.Success?)
            && (!Ended(s1, id) ==> JustQueued(s1, id))
            && Reports([e]) == [if s.table[id].files == [] then ("DONE", Some("Success"))
                                else if r.Success? then QUEUED else ("DONE", Some("Error"))]
  {
    hide SubmissionOf, JobOk, SubmitCalls;
    var id, s1, r := close.jobId, Step(s, close).0, Step(s, close).1;
    if s.table[id].files == [] {
      e := StateEvent(s.table[id], "DONE", Some("Success"), [], s.clock);
    } else if r.Success? {
      e := StateEvent(s1.table[id].(lastPrinterState := s.table[id].lastPrinterState), "QUEUED", None, [], s.clock);
    } else {
      RefusedKeepsTable(s, id, close.maxResolution, close.world);
      e := StateEvent(s.table[id], "DONE", Some("Error"), [], s.clock);
    }
    assert [e][1..] == [];
  }

  /** The same from a successful allAtOnce, which posts no page events before. */
  lemma ReportsSinceAllAtOnce(s: Service, op: Op, ops: seq<Op>)
    requires TableInv(s) && op.AllAtOnce? && Step(s, op).1.NewJob?
    ensures Reports(StreamOf(Run(Step(s, op).0, ops).streams, s.nextId)) == QueuedReports(ops, s.nextId)
  {
    var id, s1 := s.nextId, Step(s, op).0;
    TableStep(s, op);
    var e := QueuedAtOnce(s, op);
    hide *;
    var tail := ReportsFollowCups(s1, ops, id);
    ReportsConcat([e], tail);
    QueuedUnfolds(ops, id);
  }

  lemma QueuedAtOnce(s: Service, op: Op) returns (e: Event)
    requires TableInv(s) && op.AllAtOnce? && Step(s, op).1.NewJob?
    ensures var s1 := Step(s, op).0;
            JustQueued(s1, s.nextId) && StreamOf(s1.streams, s.nextId) == [e] && Reports([e]) == [QUEUED]
  {
    hide SubmissionOf, JobOk, SubmitCalls, PathsOf, FirstItemError, FreshJob;
    var s1, id := Step(s, op).0, s.nextId;
    e := StateEvent(s1.table[id].(lastPrinterState := Filled(s, op.printer, op.description, op.appName, op.dirMade,
                      op.autoScale, op.items).table[id].lastPrinterState), "QUEUED", None, [], s.clock);
    assert [e][1..] == [];
  }
}
