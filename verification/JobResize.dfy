/** resizeTempFile, which looks for the owner of a path through the whole job table. */
module JobResize {
  import opened Prelude
  import opened PrintErrors
  import opened SpoolPaths
  import opened JobModel
  import opened JobInvariants
  import opened JobScratch

  predicate Owns(table: map<int, Job>, id: int, path: string) {
    id in table && path in table[id].tempFiles
  }

  /**
   * The jobs whose file is truncated, or would be, and the reply; err is the error of the job visited before.
   * Each job that does not own the path overwrites the error.
   */
  function Visit(table: map<int, Job>, order: seq<int>, path: string, truncates: int -> bool, err: int): (seq<int>, Reply) {
    if order == [] then ([], Failure(err))
    else if !Owns(table, order[0], path) then Visit(table, order[1..], path, truncates, FILE_NOT_IN_ANY_JOB)
    else if truncates(order[0]) then ([order[0]], Success)
    else
      var (tried, reply) := Visit(table, order[1..], path, truncates, TEMP_FILE_TOO_LARGE);
      ([order[0]] + tried, reply)
  }

  lemma VisitOne(table: map<int, Job>, order: seq<int>, path: string, truncates: int -> bool, err: int, i: nat)
    requires i < |order|
    ensures var id, now := order[i], Visit(table, order[i..], path, truncates, err);
            if !Owns(table, id, path) then now == Visit(table, order[i + 1..], path, truncates, FILE_NOT_IN_ANY_JOB)
            else if truncates(id) then now == ([id], Success)
            else var rest := Visit(table, order[i + 1..], path, truncates, TEMP_FILE_TOO_LARGE);
                 now.0 == [id] + rest.0 && now.1 == rest.1
  {
    assert order[i..][1..] == order[i + 1..];
  }

  lemma {:induction false} NoOwner(table: map<int, Job>, order: seq<int>, path: string, truncates: int -> bool, err: int)
    requires forall id :: id in order ==> !Owns(table, id, path)
    ensures Visit(table, order, path, truncates, err)
            == ([], Failure(if order == [] then err else FILE_NOT_IN_ANY_JOB))
  {
    if order != [] { NoOwner(table, order[1..], path, truncates, FILE_NOT_IN_ANY_JOB); }
  }

  lemma {:induction false} OneOwner(table: map<int, Job>, order: seq<int>, path: string, truncates: int -> bool,
                                    err: int, owner: int)
    requires Distinct(order) && owner in order && Owns(table, owner, path)
    requires forall id :: id in order && id != owner ==> !Owns(table, id, path)
    ensures Visit(table, order, path, truncates, err)
            == ([owner], if truncates(owner) then Success
                         else if order[|order| - 1] == owner then Failure(TEMP_FILE_TOO_LARGE)
                         else Failure(FILE_NOT_IN_ANY_JOB))
  {
    if order[0] == owner {
      assert forall i :: 0 < i < |order| ==> order[i] != order[0];
      assert forall id :: id in order[1..] ==> id != owner && id in order;
      NoOwner(table, order[1..], path, truncates, TEMP_FILE_TOO_LARGE);
      assert [owner] + [] == [owner];
    } else {
      OneOwner(table, order[1..], path, truncates, FILE_NOT_IN_ANY_JOB, owner);
    }
  }

  /**
   * In every reachable table a resize truncates at most one file, that of the only owner. It succeeds exactly
   * if there is an owner and its file could be truncated; a failed truncation is reported as -616 exactly if
   * the owner happens to be visited last, and as "not in any job" otherwise.
   */
  lemma ResizeOutcome(s: Service, order: seq<int>, path: string, truncates: int -> bool)
    requires TableInv(s) && ScratchInv(s)
    requires Distinct(order) && forall id :: id in order <==> id in s.table
    ensures var (tried, reply) := Visit(s.table, order, path, truncates, FILE_NOT_IN_ANY_JOB);
            && |tried| <= 1
            && (forall id :: id in tried <==> Owns(s.table, id, path))
            && (reply.Success? <==> tried != [] && truncates(tried[0]))
            && (!reply.Success? ==>
                  reply == Failure(if tried != [] && order[|order| - 1] == tried[0] then TEMP_FILE_TOO_LARGE
                                   else FILE_NOT_IN_ANY_JOB))
  {
    hide JobOk, OwnNames;
    if owner :| Owns(s.table, owner, path) {
      forall id | id in order && id != owner
        ensures !Owns(s.table, id, path)
      {
        if Owns(s.table, id, path) {
          var i :| 0 <= i < |s.table[id].tempFiles| && s.table[id].tempFiles[i] == path;
          var j :| 0 <= j < |s.table[owner].tempFiles| && s.table[owner].tempFiles[j] == path;
          OwnedOnce(s, id, owner, i, j);
        }
      }
      OneOwner(s.table, order, path, truncates, FILE_NOT_IN_ANY_JOB, owner);
    } else {
      NoOwner(s.table, order, path, truncates, FILE_NOT_IN_ANY_JOB);
    }
  }

  /** So the same failed truncation is reported differently by two orders of the same table. */
  lemma OrderDecidesError(table: map<int, Job>, path: string, owner: int, other: int)
    requires Owns(table, owner, path) && !Owns(table, other, path)
    ensures Visit(table, [other, owner], path, _ => false, FILE_NOT_IN_ANY_JOB).1 == Failure(TEMP_FILE_TOO_LARGE)
    ensures Visit(table, [owner, other], path, _ => false, FILE_NOT_IN_ANY_JOB).1 == Failure(FILE_NOT_IN_ANY_JOB)
  {
    OneOwner(table, [other, owner], path, _ => false, FILE_NOT_IN_ANY_JOB, owner);
    OneOwner(table, [owner, other], path, _ => false, FILE_NOT_IN_ANY_JOB, owner);
  }

  /** Such a table is soon reached: open two jobs, and let the first have a scratch file. */
  lemma OrderDecidesInRun(clock: nat)
    ensures var open := OpenJob("p", "d", "a", true);
            var s := Run(InitialService(clock), [open, open, NewTempFile(1, "png", 0, true, true)]);
            var path := TempPath(TempDir(SPOOL_ROOT, 1), 1, "png");
            && s.table.Keys == {1, 2}
            && Visit(s.table, [2, 1], path, _ => false, FILE_NOT_IN_ANY_JOB).1 == Failure(TEMP_FILE_TOO_LARGE)
            && Visit(s.table, [1, 2], path, _ => false, FILE_NOT_IN_ANY_JOB).1 == Failure(FILE_NOT_IN_ANY_JOB)
  {
    hide TempPath, TempDir, Visit;
    var open, temp := OpenJob("p", "d", "a", true), NewTempFile(1, "png", 0, true, true);
    var s1 := Step(InitialService(clock), open).0;
    var s2 := Step(s1, open).0;
    var s3 := Step(s2, temp).0;
    assert s3.table.Keys == {1, 2} && s3.table[2].tempFiles == [];
    assert s3.table[1].tempFiles == [TempPath(TempDir(SPOOL_ROOT, 1), 1, "png")];
    RunThree(InitialService(clock), open, open, temp);
    OrderDecidesError(s3.table, TempPath(TempDir(SPOOL_ROOT, 1), 1, "png"), 1, 2);
  }

  lemma RunThree(s: Service, a: Op, b: Op, c: Op)
    ensures Run(s, [a, b, c]) == Step(Step(Step(s, a).0, b).0, c).0
  {
    hide Step;
    var s1, s2 := Step(s, a).0, Step(Step(s, a).0, b).0;
    assert [a, b, c][1..] == [b, c] && [b, c][1..] == [c] && [c][1..] == [];
    assert Run(s1, [b, c]) == Run(s2, [c]) == Run(Step(s2, c).0, []);
  }
}
