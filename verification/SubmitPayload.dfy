/** What a submission delivers to the server, when it succeeds, and which error it reports. */
module SubmitPayload {
  import opened Prelude
  import opened CupsOptions
  import opened CupsSubmit
  import opened PrintErrors

  // ------------------------------------------------------------------ delivery

  /** A document as the server received it. */
  datatype Document = Document(path: string, format: string, last: bool, bytes: seq<Byte>)

  function Receive(docs: seq<Document>, c: Call): seq<Document> {
    match c
    case StartDocument(_, path, format, last, true) => docs + [Document(path, format, last, [])]
    case WriteData(bytes, true) =>
      if docs == [] then docs
      else docs[..|docs| - 1] + [docs[|docs| - 1].(bytes := docs[|docs| - 1].bytes + bytes)]
    case _ => docs
  }

  function Received(docs: seq<Document>, t: seq<Call>): seq<Document>
    decreases t
  {
    if t == [] then docs else Received(Receive(docs, t[0]), t[1..])
  }

  lemma {:induction false} ReceivedConcat(docs: seq<Document>, s: seq<Call>, t: seq<Call>)
    ensures Received(docs, s + t) == Received(Received(docs, s), t)
    decreases s
  {
    if s == [] {
      assert s + t == t;
    } else {
      hide Receive;
      assert (s + t)[1..] == s[1..] + t;
      ReceivedConcat(Receive(docs, s[0]), s[1..], t);
    }
  }

  lemma {:induction false} WritesDeliver(docs: seq<Document>, d: Document, content: seq<Byte>, writes: nat -> bool, k: nat)
    requires WriteCalls(content, writes, k).1
    ensures Received(docs + [d], WriteCalls(content, writes, k).0) == docs + [d.(bytes := d.bytes + content)]
    decreases |content|
  {
    if content == [] {
      assert d.bytes + content == d.bytes;
    } else {
      hide NextChunk, Receive;
      var chunk := NextChunk(content);
      assert chunk == content[..|chunk|];
      var d' := d.(bytes := d.bytes + chunk);
      WritesDeliver(docs, d', content[|chunk|..], writes, k + 1);
      var rest := WriteCalls(content[|chunk|..], writes, k + 1).0;
      assert ([WriteData(chunk, true)] + rest)[1..] == rest;
      ReceiveWrite(docs, d, chunk);
      SplitBytes(d.bytes, content, |chunk|);
    }
  }

  lemma ReceiveWrite(docs: seq<Document>, d: Document, bytes: seq<Byte>)
    ensures Receive(docs + [d], WriteData(bytes, true)) == docs + [d.(bytes := d.bytes + bytes)]
  {}

  lemma SplitBytes(before: seq<Byte>, content: seq<Byte>, n: nat)
    requires n <= |content|
    ensures (before + content[..n]) + content[n..] == before + content
  {}

  lemma DocumentDelivered(printer: string, files: seq<string>, i: nat, id: int, d: DocAnswers, docs: seq<Document>)
    requires i < |files| && DocCalls(printer, files, i, id, d).1.None?
    ensures d.format.Some?
    ensures Received(docs, DocCalls(printer, files, i, id, d).0)
            == docs + [Document(files[i], d.format.value, i + 1 == |files|, d.content)]
  {
    hide WriteCalls, Received;
    var start := StartDocument(id, files[i], d.format.value, i + 1 == |files|, true);
    var begin := [OpenFile(files[i]), start];
    var writes := WriteCalls(d.content, d.writes, 0).0;
    var doc := Document(files[i], d.format.value, i + 1 == |files|, []);
    ReceivedConcat(docs, begin, writes);
    ReceivedConcat(docs, begin + writes, [CloseFile(files[i]), FinishDocument(true)]);
    ReceivedTwo(docs, OpenFile(files[i]), start);
    WritesDeliver(docs, doc, d.content, d.writes, 0);
    ReceivedTwo(docs + [doc.(bytes := d.content)], CloseFile(files[i]), FinishDocument(true));
    assert doc.bytes + d.content == d.content;
  }

  lemma ReceivedTwo(docs: seq<Document>, c: Call, d: Call)
    ensures Received(docs, [c, d]) == Receive(Receive(docs, c), d)
  {
    hide Receive;
    assert [c, d][1..] == [d];
    ReceivedOne(Receive(docs, c), d);
  }

  lemma ReceivedOne(docs: seq<Document>, c: Call)
    ensures Received(docs, [c]) == Receive(docs, c)
  {
    hide Receive;
    assert [c][1..] == [];
  }

  /** The documents a complete submission consists of, from number i on. */
  function Expected(files: seq<string>, i: nat, w: World): seq<Document>
    requires i <= |files|
    decreases |files| - i
  {
    if i == |files| then []
    else
      var d := w.docs(i);
      [Document(files[i], if d.format.Some? then d.format.value else "", i + 1 == |files|, d.content)]
      + Expected(files, i + 1, w)
  }

  ghost predicate IsDocument(files: seq<string>, w: World, k: nat, d: Document) {
    && k < |files| && d.path == files[k] && d.bytes == w.docs(k).content && (d.last <==> k + 1 == |files|)
    && w.docs(k).format == Some(d.format)
  }

  lemma {:induction false} ExpectedAt(files: seq<string>, i: nat, w: World)
    requires i <= |files| && forall j :: i <= j < |files| ==> w.docs(j).format.Some?
    ensures |Expected(files, i, w)| == |files| - i
    ensures forall k: nat :: k < |files| - i ==> IsDocument(files, w, i + k, Expected(files, i, w)[k])
    decreases |files| - i
  {
    if i < |files| {
      ExpectedAt(files, i + 1, w);
      forall k: nat | k < |files| - i
        ensures IsDocument(files, w, i + k, Expected(files, i, w)[k])
      {
        if k > 0 {
          assert IsDocument(files, w, (i + 1) + (k - 1), Expected(files, i + 1, w)[k - 1]);
        }
      }
    }
  }

  lemma {:induction false} DocumentsDelivered(printer: string, files: seq<string>, i: nat, id: int, w: World,
                                             docs: seq<Document>)
    requires i <= |files| && DocsCalls(printer, files, i, id, w).1.Submitted?
    ensures Received(docs, DocsCalls(printer, files, i, id, w).0) == docs + Expected(files, i, w)
    decreases |files| - i
  {
    hide DocCalls;
    if i == |files| {
      assert docs + Expected(files, i, w) == docs;
    } else {
      hide Received;
      var d := w.docs(i);
      var calls, rest := DocCalls(printer, files, i, id, d).0, DocsCalls(printer, files, i + 1, id, w).0;
      DocumentDelivered(printer, files, i, id, d, docs);
      var doc := Document(files[i], d.format.value, i + 1 == |files|, d.content);
      ReceivedConcat(docs, calls, rest);
      DocumentsDelivered(printer, files, i + 1, id, w, docs + [doc]);
      Associate(docs, [doc], Expected(files, i + 1, w));
    }
  }

  lemma SubmissionDelivers(printer: string, title: Option<string>, files: seq<string>, p: JobParams, w: World)
    requires SubmitCalls(printer, title, files, p, w).1.Submitted?
    ensures Received([], SubmitCalls(printer, title, files, p, w).0) == Expected(files, 0, w)
  {
    hide DocsCalls, Received, Options, Expected;
    var name := if title.Some? then title.value else DEFAULT_TITLE;
    var alloc, create := AllocOptions(Options(p)), CreateJob(printer, name, Options(p), w.created);
    var calls := DocsCalls(printer, files, 0, w.created, w).0;
    ReceivedTwo([], alloc, create);
    ReceivedConcat([], [alloc, create], calls);
    DocumentsDelivered(printer, files, 0, w.created, w, []);
    ReceivedConcat([], [alloc, create] + calls, [FreeOptions]);
    ReceivedOne(Received([], [alloc, create] + calls), FreeOptions);
    assert [] + Expected(files, 0, w) == Expected(files, 0, w);
  }

  lemma FormatsKnown(printer: string, title: Option<string>, files: seq<string>, p: JobParams, w: World)
    requires SubmitCalls(printer, title, files, p, w).1.Submitted?
    ensures forall j :: 0 <= j < |files| ==> w.docs(j).format.Some?
  {
    if files != [] {
      SubmissionOutcome(printer, title, files, p, w);
      hide SubmitCalls;
      assert forall j :: 0 <= j < |files| ==> DocOk(w.docs(j));
    }
  }

  /**
   * A successful submission delivers every file once, in order, byte for byte, under the format found for it, and
   * marks only the final one as last.
   */
  lemma SuccessDeliversEverything(printer: string, title: Option<string>, files: seq<string>, p: JobParams, w: World)
    requires SubmitCalls(printer, title, files, p, w).1.Submitted?
    ensures var docs := Received([], SubmitCalls(printer, title, files, p, w).0);
            && |docs| == |files|
            && forall i: nat :: i < |files| ==> IsDocument(files, w, i, docs[i])
  {
    FormatsKnown(printer, title, files, p, w);
    SubmissionDelivers(printer, title, files, p, w);
    hide *;
    ExpectedDocuments(files, w);
  }

  lemma ExpectedDocuments(files: seq<string>, w: World)
    requires forall j :: 0 <= j < |files| ==> w.docs(j).format.Some?
    ensures |Expected(files, 0, w)| == |files|
    ensures forall i: nat :: i < |files| ==> IsDocument(files, w, i, Expected(files, 0, w)[i])
  {
    ExpectedAt(files, 0, w);
    hide Expected, IsDocument;
    forall i: nat | i < |files|
      ensures IsDocument(files, w, i, Expected(files, 0, w)[i])
    {
      assert IsDocument(files, w, 0 + i, Expected(files, 0, w)[i]);
    }
  }

  // --------------------------------------------------------- success and errors

  function ChunkCount(length: nat): nat {
    (length + CHUNK - 1) / CHUNK
  }

  ghost predicate AllWritten(d: DocAnswers) {
    forall k :: 0 <= k < ChunkCount(|d.content|) ==> d.writes(k)
  }

  ghost predicate DocOk(d: DocAnswers) {
    d.format.Some? && d.opens && d.started && AllWritten(d) && d.finish.FinishOk?
  }

  /** The error a failing document ends the job with. */
  ghost function DocError(d: DocAnswers): int {
    if d.format.None? then UNSUPPORTED_MIME_TYPE
    else if !d.opens then FILE_DOES_NOT_EXIST
    else if d.started && AllWritten(d) && d.finish.FormatRejected? then UNSUPPORTED_MIME_TYPE
    else JOB_ADD_PAGE_FAILED
  }

  lemma {:induction false} WritesSucceed(content: seq<Byte>, writes: nat -> bool, k: nat)
    ensures WriteCalls(content, writes, k).1 <==> forall j :: k <= j < k + ChunkCount(|content|) ==> writes(j)
    decreases |content|
  {
    if content != [] {
      var chunk := NextChunk(content);
      WritesSucceed(content[|chunk|..], writes, k + 1);
      assert ChunkCount(|content|) == 1 + ChunkCount(|content| - |chunk|);
    }
  }

  /** CUPS accepts the job exactly when it creates it and every document goes through. */
  lemma {:induction false} DocumentsSucceed(printer: string, files: seq<string>, i: nat, id: int, w: World)
    requires i <= |files|
    ensures DocsCalls(printer, files, i, id, w).1.Submitted? <==> forall j :: i <= j < |files| ==> DocOk(w.docs(j))
    ensures forall j :: i <= j < |files| && !DocOk(w.docs(j)) && (forall m :: i <= m < j ==> DocOk(w.docs(m)))
              ==> DocsCalls(printer, files, i, id, w).1 == Refused(DocError(w.docs(j)))
    decreases |files| - i
  {
    if i < |files| {
      var d := w.docs(i);
      WritesSucceed(d.content, d.writes, 0);
      DocumentsSucceed(printer, files, i + 1, id, w);
    }
  }

  /** Success in terms of the answers alone; otherwise the first failing document decides the error. */
  lemma SubmissionOutcome(printer: string, title: Option<string>, files: seq<string>, p: JobParams, w: World)
    requires files != []
    ensures var result := SubmitCalls(printer, title, files, p, w).1;
            && (result.Submitted? <==> w.created > 0 && forall j :: 0 <= j < |files| ==> DocOk(w.docs(j)))
            && (w.created <= 0 ==> result == Refused(JOB_START_FAILED))
            && forall j :: w.created > 0 && 0 <= j < |files| && !DocOk(w.docs(j))
                           && (forall m :: 0 <= m < j ==> DocOk(w.docs(m)))
                 ==> result == Refused(DocError(w.docs(j)))
  {
    hide DocsCalls, DocOk, DocError;
    DocumentsSucceed(printer, files, 0, w.created, w);
  }
}
