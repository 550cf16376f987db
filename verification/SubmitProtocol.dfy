/** What every submission does, for all files and all answers of the server: a monitor and its consequences. */
module SubmitProtocol {
  import opened Prelude
  import opened CupsOptions
  import opened CupsSubmit
  import opened PrintErrors

  // ---------------------------------------------------------------- the monitor

  // `sent` documents are complete; a path is a file held open.
  datatype Phase =
    | Start
    | HaveOptions
    | CreateRefused
    | Ready(id: int, sent: nat)
    | FileOpen(id: int, sent: nat, path: string)
    | Sending(id: int, sent: nat, path: string)
    | StartRefused(id: int, path: string)
    | WriteRefused(id: int, sent: nat, path: string)
    | FinishDue(id: int, sent: nat, broken: bool)
    | CancelDue(id: int)
    | Cancelled
    | Freed(ok: bool, created: bool)
    | Bad

  /** What is to be submitted, and the format of each file as far as it is known. */
  datatype Request = Request(printer: string, title: string, files: seq<string>, options: seq<CupsOption>,
                             formats: nat -> Option<string>)

  function RequestFor(printer: string, title: Option<string>, files: seq<string>, p: JobParams, w: World): Request {
    Request(printer, Or(title, DEFAULT_TITLE), files, Options(p), (i: nat) => w.docs(i).format)
  }

  /** One step of the protocol: Create (Start Write* Finish)*, ended by a cancellation if anything failed. */
  function Next(r: Request, p: Phase, c: Call): Phase {
    match (p, c)
    case (Start, AllocOptions(options)) => if options == r.options then HaveOptions else Bad
    case (HaveOptions, CreateJob(printer, title, options, answer)) =>
      if printer != r.printer || title != r.title || options != r.options then Bad
      else if answer > 0 then Ready(answer, 0) else CreateRefused
    case (CreateRefused, FreeOptions) => Freed(false, false)
    case (Ready(id, sent), OpenFile(path)) =>
      if sent < |r.files| && path == r.files[sent] then FileOpen(id, sent, path) else Bad
    case (Ready(id, sent), CancelJob(pr, j)) =>
      if sent < |r.files| && pr == r.printer && j == id then Cancelled else Bad
    case (Ready(id, sent), FreeOptions) => if sent == |r.files| then Freed(true, true) else Bad
    case (FileOpen(id, sent, path), StartDocument(j, q, format, last, accepted)) =>
      if j != id || q != path || r.formats(sent) != Some(format) || last != (sent + 1 == |r.files|) then Bad
      else if accepted then Sending(id, sent, path) else StartRefused(id, path)
    case (StartRefused(id, path), CloseFile(q)) => if q == path then CancelDue(id) else Bad
    case (Sending(id, sent, path), WriteData(bytes, accepted)) =>
      if !(0 < |bytes| <= CHUNK) then Bad
      else if accepted then p else WriteRefused(id, sent, path)
    case (Sending(id, sent, path), CloseFile(q)) => if q == path then FinishDue(id, sent, false) else Bad
    case (WriteRefused(id, sent, path), CloseFile(q)) => if q == path then FinishDue(id, sent, true) else Bad
    case (FinishDue(id, sent, broken), FinishDocument(accepted)) =>
      if broken || !accepted then CancelDue(id) else Ready(id, sent + 1)
    case (CancelDue(id), CancelJob(pr, j)) => if pr == r.printer && j == id then Cancelled else Bad
    case (Cancelled, FreeOptions) => Freed(false, true)
    case _ => Bad
  }

  function Watch(r: Request, p: Phase, t: seq<Call>): Phase
    decreases t
  {
    if t == [] then p else Watch(r, Next(r, p, t[0]), t[1..])
  }

  lemma {:induction false} WatchConcat(r: Request, p: Phase, s: seq<Call>, t: seq<Call>)
    ensures Watch(r, p, s + t) == Watch(r, Watch(r, p, s), t)
    decreases s
  {
    if s == [] {
      assert s + t == t;
    } else {
      hide Next;
      assert (s + t)[1..] == s[1..] + t;
      WatchConcat(r, Next(r, p, s[0]), s[1..], t);
    }
  }

  lemma {:induction false} WatchWrites(r: Request, id: int, sent: nat, path: string,
                                       content: seq<Byte>, writes: nat -> bool, k: nat)
    ensures Watch(r, Sending(id, sent, path), WriteCalls(content, writes, k).0)
            == if WriteCalls(content, writes, k).1 then Sending(id, sent, path) else WriteRefused(id, sent, path)
    decreases |content|
  {
    if content != [] {
      var chunk := NextChunk(content);
      if writes(k) {
        WatchWrites(r, id, sent, path, content[|chunk|..], writes, k + 1);
        var (rest, ok) := WriteCalls(content[|chunk|..], writes, k + 1);
        assert ([WriteData(chunk, true)] + rest)[1..] == rest;
      } else {
        assert [WriteData(chunk, false)][1..] == [];
      }
    }
  }

  lemma WatchOne(r: Request, p: Phase, c: Call)
    ensures Watch(r, p, [c]) == Next(r, p, c)
  {
    hide Next;
    assert [c][1..] == [];
  }

  lemma WatchTwo(r: Request, p: Phase, c: Call, d: Call)
    ensures Watch(r, p, [c, d]) == Next(r, Next(r, p, c), d)
  {
    hide Next;
    assert [c, d][1..] == [d];
    WatchOne(r, Next(r, p, c), d);
  }

  lemma WatchDocument(r: Request, i: nat, id: int, d: DocAnswers)
    requires i < |r.files| && r.formats(i) == d.format
    ensures var (calls, err) := DocCalls(r.printer, r.files, i, id, d);
            Watch(r, Ready(id, i), calls) == if err.None? then Ready(id, i + 1) else Cancelled
  {
    hide Watch, WriteCalls;
    var path, last := r.files[i], i + 1 == |r.files|;
    var cancel := CancelJob(r.printer, id);
    WatchOne(r, Ready(id, i), cancel);
    WatchOne(r, CancelDue(id), cancel);
    if d.format.Some? && d.opens {
      var open, start := OpenFile(path), StartDocument(id, path, d.format.value, last, d.started);
      var close, finish := CloseFile(path), FinishDocument(d.finish.FinishOk?);
      WatchTwo(r, Ready(id, i), open, start);
      if !d.started {
        WatchConcat(r, Ready(id, i), [open, start] + [close], [cancel]);
        WatchConcat(r, Ready(id, i), [open, start], [close]);
        WatchOne(r, StartRefused(id, path), close);
      } else {
        var (writes, ok) := WriteCalls(d.content, d.writes, 0);
        WatchConcat(r, Ready(id, i), [open, start], writes);
        WatchWrites(r, id, i, path, d.content, d.writes, 0);
        WatchConcat(r, Ready(id, i), [open, start] + writes, [close, finish]);
        WatchTwo(r, Watch(r, Ready(id, i), [open, start] + writes), close, finish);
        WatchConcat(r, Ready(id, i), [open, start] + writes + [close, finish], [cancel]);
      }
    }
  }

  lemma {:induction false} WatchDocuments(r: Request, i: nat, id: int, w: World)
    requires i <= |r.files| && forall j: nat :: j < |r.files| ==> r.formats(j) == w.docs(j).format
    ensures var (calls, result) := DocsCalls(r.printer, r.files, i, id, w);
            && Watch(r, Ready(id, i), calls)
               == (if result.Submitted? then Ready(id, |r.files|) else Cancelled)
            && (result.Submitted? ==> result.cupsId == id)
    decreases |r.files| - i
  {
    hide DocCalls, Next;
    if i < |r.files| {
      WatchDocument(r, i, id, w.docs(i));
      var (calls, err) := DocCalls(r.printer, r.files, i, id, w.docs(i));
      if err.None? {
        WatchDocuments(r, i + 1, id, w);
        WatchConcat(r, Ready(id, i), calls, DocsCalls(r.printer, r.files, i + 1, id, w).0);
      }
    }
  }

  /**
   * Every submission of at least one file follows the protocol to its end: the job created with the title and the
   * options allocated for it, each document started under its own path and format, options freed once and last,
   * every opened file closed, the last flag on the final document only, and a cancellation of the created job exactly
   * when it fails after the creation. A success returns the positive id CUPS gave. No files means no calls.
   */
  lemma SubmissionFollowsProtocol(printer: string, title: Option<string>, files: seq<string>, p: JobParams, w: World)
    ensures var (calls, result) := SubmitCalls(printer, title, files, p, w);
            && (files == [] ==> calls == [] && result == Refused(NO_FILES_TO_PRINT))
            && (files != [] ==>
                  Watch(RequestFor(printer, title, files, p, w), Start, calls) == Freed(result.Submitted?, w.created > 0))
            && (result.Submitted? ==> result.cupsId == w.created > 0)
  {
    hide DocsCalls, Options, Watch;
    if files != [] {
      var r := RequestFor(printer, title, files, p, w);
      var (calls, result) := SubmitCalls(printer, title, files, p, w);
      var alloc, create := AllocOptions(r.options), CreateJob(printer, r.title, r.options, w.created);
      WatchTwo(r, Start, alloc, create);
      if w.created <= 0 {
        WatchConcat(r, Start, [alloc, create], [FreeOptions]);
        WatchOne(r, CreateRefused, FreeOptions);
      } else {
        var docs := DocsCalls(printer, files, 0, w.created, w).0;
        WatchDocuments(r, 0, w.created, w);
        WatchConcat(r, Start, [alloc, create], docs);
        WatchConcat(r, Start, [alloc, create] + docs, [FreeOptions]);
        WatchOne(r, Watch(r, Start, [alloc, create] + docs), FreeOptions);
      }
    }
  }

  // ------------------------------------------------------- what the monitor means

  function Count(t: seq<Call>, f: Call -> bool): nat {
    if t == [] then 0 else (if f(t[0]) then 1 else 0) + Count(t[1..], f)
  }

  predicate HoldsFile(p: Phase) {
    p.FileOpen? || p.Sending? || p.StartRefused? || p.WriteRefused?
  }

  predicate HoldsOptions(p: Phase) {
    !p.Start? && !p.Freed?
  }

  predicate HasCancelled(p: Phase) {
    p.Cancelled? || (p.Freed? && p.created && !p.ok)
  }

  function One(b: bool): int {
    if b then 1 else 0
  }

  lemma {:induction false} WatchFiles(r: Request, p: Phase, t: seq<Call>)
    requires !Watch(r, p, t).Bad?
    ensures Count(t, (c: Call) => c.OpenFile?) - Count(t, (c: Call) => c.CloseFile?)
            == One(HoldsFile(Watch(r, p, t))) - One(HoldsFile(p))
    decreases t
  {
    if t != [] {
      var n := Next(r, p, t[0]);
      if n.Bad? { BadStaysBad(r, t[1..]); } else { WatchFiles(r, n, t[1..]); }
    }
  }

  lemma {:induction false} WatchOptions(r: Request, p: Phase, t: seq<Call>)
    requires !Watch(r, p, t).Bad?
    ensures var q := Watch(r, p, t);
            && Count(t, (c: Call) => c.AllocOptions?) - Count(t, (c: Call) => c.FreeOptions?)
               == One(HoldsOptions(q)) - One(HoldsOptions(p))
            && Count(t, (c: Call) => c.FreeOptions?) == One(q.Freed?) - One(p.Freed?)
    decreases t
  {
    if t != [] {
      var n := Next(r, p, t[0]);
      if n.Bad? { BadStaysBad(r, t[1..]); } else { WatchOptions(r, n, t[1..]); }
    }
  }

  lemma {:induction false} WatchCancels(r: Request, p: Phase, t: seq<Call>)
    requires !Watch(r, p, t).Bad?
    ensures Count(t, (c: Call) => c.CancelJob?) == One(HasCancelled(Watch(r, p, t))) - One(HasCancelled(p))
    decreases t
  {
    if t != [] {
      var n := Next(r, p, t[0]);
      if n.Bad? { BadStaysBad(r, t[1..]); } else { WatchCancels(r, n, t[1..]); }
    }
  }

  lemma {:induction false} BadStaysBad(r: Request, t: seq<Call>)
    ensures Watch(r, Bad, t).Bad?
  {
    if t != [] { BadStaysBad(r, t[1..]); }
  }

  /** In plain counts: files and options balance, and there is one cancellation after a failure and none otherwise. */
  lemma SubmissionBalance(printer: string, title: Option<string>, files: seq<string>, p: JobParams, w: World)
    requires files != []
    ensures var (t, result) := SubmitCalls(printer, title, files, p, w);
            && Count(t, (c: Call) => c.OpenFile?) == Count(t, (c: Call) => c.CloseFile?)
            && Count(t, (c: Call) => c.AllocOptions?) == 1 == Count(t, (c: Call) => c.FreeOptions?)
            && Count(t, (c: Call) => c.CancelJob?) == (if result.Refused? && w.created > 0 then 1 else 0)
  {
    SubmissionFollowsProtocol(printer, title, files, p, w);
    var r, t := RequestFor(printer, title, files, p, w), SubmitCalls(printer, title, files, p, w).0;
    WatchFiles(r, Start, t);
    WatchOptions(r, Start, t);
    WatchCancels(r, Start, t);
  }

  predicate IsCreation(c: Call) {
    c.CreateJob?
  }

  predicate HasCreated(p: Phase) {
    !p.Start? && !p.HaveOptions?
  }

  lemma {:induction false} WatchCreations(r: Request, p: Phase, t: seq<Call>)
    requires !Watch(r, p, t).Bad?
    ensures Count(t, IsCreation) == One(HasCreated(Watch(r, p, t))) - One(HasCreated(p))
    decreases t
  {
    if t != [] {
      var n := Next(r, p, t[0]);
      if n.Bad? {
        BadStaysBad(r, t[1..]);
      } else {
        WatchCreations(r, n, t[1..]);
      }
    }
  }

  /** A submission asks CUPS to create one job. */
  lemma OneCreation(printer: string, title: Option<string>, files: seq<string>, p: JobParams, w: World)
    requires files != []
    ensures Count(SubmitCalls(printer, title, files, p, w).0, IsCreation) == 1
  {
    SubmissionFollowsProtocol(printer, title, files, p, w);
    WatchCreations(RequestFor(printer, title, files, p, w), Start, SubmitCalls(printer, title, files, p, w).0);
  }

  lemma {:induction false} CountConcat(s: seq<Call>, t: seq<Call>, f: Call -> bool)
    ensures Count(s + t, f) == Count(s, f) + Count(t, f)
  {
    if s == [] {
      assert s + t == t;
    } else {
      assert (s + t)[1..] == s[1..] + t;
      CountConcat(s[1..], t, f);
    }
  }
}
