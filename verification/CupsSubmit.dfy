/** Handing a list of files to CUPS as one job (sections 4.2.4 and 4.3.1 of RFC 8011). */
module CupsSubmit {
  import opened Prelude
  import opened CupsOptions
  import opened PrintErrors

  newtype Byte = b: int | 0 <= b < 256

  const CHUNK := 16384
  const DEFAULT_TITLE := "LuneOS print job"

  // -------------------------------------------------- what the server answers

  datatype FinishAnswer = FinishOk | FormatRejected | FinishFailed

  /** Everything the file system and the server answer about one document; writes(k) is about its k-th chunk. */
  datatype DocAnswers = DocAnswers(format: Option<string>, opens: bool, started: bool,
                                   content: seq<Byte>, writes: nat -> bool, finish: FinishAnswer)

  datatype World = World(created: int, docs: nat -> DocAnswers)

  // ---------------------------------------------------- what the daemon does

  datatype Call =
    | QueryCaps(printer: string)
    | AllocOptions(options: seq<CupsOption>)
    | FreeOptions
    | CreateJob(printer: string, title: string, options: seq<CupsOption>, answer: int)
    | OpenFile(path: string)
    | CloseFile(path: string)
    | StartDocument(jobId: int, path: string, format: string, last: bool, accepted: bool)
    | WriteData(bytes: seq<Byte>, accepted: bool)
    | FinishDocument(accepted: bool)
    | CancelJob(printer: string, jobId: int)

  datatype SubmitResult = Submitted(cupsId: int) | Refused(err: int)

  /** What fread delivers next. */
  function NextChunk(content: seq<Byte>): (chunk: seq<Byte>)
    requires content != []
    ensures 0 < |chunk| <= CHUNK && IsPrefix(chunk, content)
  {
    if |content| <= CHUNK then content else content[..CHUNK]
  }

  /** Sends content in chunks, the first being number k, until one is refused. */
  function WriteCalls(content: seq<Byte>, writes: nat -> bool, k: nat): (seq<Call>, bool)
    decreases |content|
  {
    if content == [] then ([], true)
    else
      var chunk := NextChunk(content);
      if !writes(k) then ([WriteData(chunk, false)], false)
      else
        var (rest, ok) := WriteCalls(content[|chunk|..], writes, k + 1);
        ([WriteData(chunk, true)] + rest, ok)
  }

  /** The calls for document i, and the error that ends the job if there is one. */
  function DocCalls(printer: string, files: seq<string>, i: nat, id: int, d: DocAnswers): (seq<Call>, Option<int>)
    requires i < |files|
  {
    var path, last := files[i], i + 1 == |files|;
    var cancel := [CancelJob(printer, id)];
    if d.format.None? then (cancel, Some(UNSUPPORTED_MIME_TYPE))
    else if !d.opens then (cancel, Some(FILE_DOES_NOT_EXIST))
    else
      var begin := [OpenFile(path), StartDocument(id, path, d.format.value, last, d.started)];
      if !d.started then (begin + [CloseFile(path)] + cancel, Some(JOB_ADD_PAGE_FAILED))
      else
        var (writes, ok) := WriteCalls(d.content, d.writes, 0);
        var end := [CloseFile(path), FinishDocument(d.finish.FinishOk?)];
        if !ok then (begin + writes + end + cancel, Some(JOB_ADD_PAGE_FAILED))
        else match d.finish
          case FinishOk => (begin + writes + end, None)
          case FormatRejected => (begin + writes + end + cancel, Some(UNSUPPORTED_MIME_TYPE))
          case FinishFailed => (begin + writes + end + cancel, Some(JOB_ADD_PAGE_FAILED))
  }

  /** The calls for documents i and later. */
  function DocsCalls(printer: string, files: seq<string>, i: nat, id: int, w: World): (seq<Call>, SubmitResult)
    requires i <= |files|
    decreases |files| - i
  {
    if i == |files| then ([], Submitted(id))
    else
      var (calls, err) := DocCalls(printer, files, i, id, w.docs(i));
      match err
      case Some(e) => (calls, Refused(e))
      case None =>
        var (rest, result) := DocsCalls(printer, files, i + 1, id, w);
        (calls + rest, result)
  }

  function SubmitCalls(printer: string, title: Option<string>, files: seq<string>, p: JobParams, w: World)
    : (seq<Call>, SubmitResult)
  {
    if files == [] then ([], Refused(NO_FILES_TO_PRINT))
    else
      var options := Options(p);
      var name := if title.Some? then title.value else DEFAULT_TITLE;
      var begin := [AllocOptions(options), CreateJob(printer, name, options, w.created)];
      if w.created <= 0 then (begin + [FreeOptions], Refused(JOB_START_FAILED))
      else
        var (calls, result) := DocsCalls(printer, files, 0, w.created, w);
        (begin + calls + [FreeOptions], result)
  }

  /** The connection to CUPS; `trace` is every call made through it, and every file and option array handled. */
  class Cups {
    ghost var trace: seq<Call>

    constructor ()
      ensures trace == []
    {
      trace := [];
    }

    ghost method Log(c: Call)
      modifies this
      ensures trace == old(trace) + [c]
    {
      trace := trace + [c];
    }

    /** cups_backend_submit. */
    method Submit(printer: string, title: Option<string>, files: seq<string>, p: JobParams, w: World)
      returns (r: SubmitResult)
      modifies this
      ensures r == SubmitCalls(printer, title, files, p, w).1
      ensures trace == old(trace) + SubmitCalls(printer, title, files, p, w).0
    {
      hide DocsCalls, Options;
      if files == [] { return Refused(NO_FILES_TO_PRINT); }
      var num, options := AddOptions(p);
      var name := if title.Some? then title.value else DEFAULT_TITLE;
      Log(AllocOptions(options));
      var jobId := w.created;
      Log(CreateJob(printer, name, options, jobId));
      if jobId <= 0 {
        r := Refused(JOB_START_FAILED);
      } else {
        r := SendDocuments(printer, files, jobId, w);
      }
      Log(FreeOptions);
      assert trace == old(trace) + (trace[|old(trace)|..]);
    }

    /** The document loop. */
    method SendDocuments(printer: string, files: seq<string>, jobId: int, w: World) returns (r: SubmitResult)
      modifies this
      ensures r == DocsCalls(printer, files, 0, jobId, w).1
      ensures trace == old(trace) + DocsCalls(printer, files, 0, jobId, w).0
    {
      hide DocCalls;
      ghost var done := [];
      for idx := 0 to |files|
        invariant trace == old(trace) + done
        invariant done + DocsCalls(printer, files, idx, jobId, w).0 == DocsCalls(printer, files, 0, jobId, w).0
        invariant DocsCalls(printer, files, idx, jobId, w).1 == DocsCalls(printer, files, 0, jobId, w).1
      {
        var err := SendDocument(printer, files, idx, jobId, w.docs(idx));
        done := done + DocCalls(printer, files, idx, jobId, w.docs(idx)).0;
        if err.Some? { return Refused(err.value); }
      }
      return Submitted(jobId);
    }

    /** The body of the document loop. */
    method SendDocument(printer: string, files: seq<string>, idx: nat, jobId: int, d: DocAnswers)
      returns (err: Option<int>)
      requires idx < |files|
      modifies this
      ensures err == DocCalls(printer, files, idx, jobId, d).1
      ensures trace == old(trace) + DocCalls(printer, files, idx, jobId, d).0
    {
      hide WriteCalls;
      var path := files[idx];
      var last := idx + 1 == |files|;
      if d.format.None? {
        Log(CancelJob(printer, jobId));
        return Some(UNSUPPORTED_MIME_TYPE);
      }
      if !d.opens {
        Log(CancelJob(printer, jobId));
        return Some(FILE_DOES_NOT_EXIST);
      }
      Log(OpenFile(path));
      Log(StartDocument(jobId, path, d.format.value, last, d.started));
      if !d.started {
        Log(CloseFile(path));
        Log(CancelJob(printer, jobId));
        return Some(JOB_ADD_PAGE_FAILED);
      }
      var ok := SendChunks(d.content, d.writes);
      Log(CloseFile(path));
      Log(FinishDocument(d.finish.FinishOk?));
      if !ok {
        Log(CancelJob(printer, jobId));
        return Some(JOB_ADD_PAGE_FAILED);
      }
      if !d.finish.FinishOk? {
        Log(CancelJob(printer, jobId));
        return if d.finish.FormatRejected? then Some(UNSUPPORTED_MIME_TYPE) else Some(JOB_ADD_PAGE_FAILED);
      }
      return None;
    }

    /** The read and write loop. */
    method SendChunks(content: seq<Byte>, writes: nat -> bool) returns (ok: bool)
      modifies this
      ensures ok == WriteCalls(content, writes, 0).1
      ensures trace == old(trace) + WriteCalls(content, writes, 0).0
    {
      hide NextChunk;
      ghost var done := [];
      var left, k := content, 0;
      while left != []
        invariant trace == old(trace) + done
        invariant done + WriteCalls(left, writes, k).0 == WriteCalls(content, writes, 0).0
        invariant WriteCalls(left, writes, k).1 == WriteCalls(content, writes, 0).1
        decreases |left|
      {
        var chunk := NextChunk(left);
        Log(WriteData(chunk, writes(k)));
        ghost var before := done;
        done := done + [WriteData(chunk, writes(k))];
        if !writes(k) { return false; }
        ghost var rest := WriteCalls(left[|chunk|..], writes, k + 1).0;
        assert done + rest == before + WriteCalls(left, writes, k).0;
        left, k := left[|chunk|..], k + 1;
      }
      return true;
    }
  }
}
