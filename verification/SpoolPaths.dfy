/** Names of scratch directories and files. */
module SpoolPaths {
  import opened Decimal

  function TempDir(root: string, jobId: nat): string {
    root + "/job-" + Dec(jobId)
  }

  function TempPath(dir: string, number: nat, extension: string): string {
    dir + "/page-" + Padded(number) + "." + extension
  }

  /** p is what page `number` of job `jobId` is called, for some extension. */
  ghost predicate Names(root: string, jobId: nat, number: nat, p: string) {
    exists ext :: p == TempPath(TempDir(root, jobId), number, ext)
  }

  /** Two texts that agree, each cut at its first separator, agree before and after it. */
  lemma CutAtSeparator(a: string, b: string, x: string, y: string, sep: char)
    requires sep !in a && sep !in b
    requires a + [sep] + x == b + [sep] + y
    ensures a == b && x == y
  {
    var s := a + [sep] + x;
    assert s[|a|] == sep && s[|b|] == sep;
    assert a == s[..|a|] && b == s[..|b|] && x == s[|a| + 1..] && y == s[|b| + 1..];
  }

  lemma CancelPrefix(h: string, x: string, y: string)
    requires h + x == h + y
    ensures x == y
  {
    assert x == (h + x)[|h|..];
    assert y == (h + y)[|h|..];
  }

  lemma Regroup(root: string, jobId: nat, number: nat, ext: string)
    ensures TempPath(TempDir(root, jobId), number, ext)
            == (root + "/job-") + (Dec(jobId) + ['/'] + ("page-" + (Padded(number) + ['.'] + ext)))
  {
    var page := Padded(number) + ['.'] + ext;
    var left := root + "/job-" + Dec(jobId);
    assert TempPath(TempDir(root, jobId), number, ext) == left + ("/page-" + page);
    assert "/page-" + page == ['/'] + ("page-" + page);
    assert left + (['/'] + ("page-" + page)) == (root + "/job-") + (Dec(jobId) + ['/'] + ("page-" + page));
  }

  /** The path of a scratch file determines the job, the page number and the extension. */
  lemma PathsInjective(root: string, i: nat, j: nat, m: nat, n: nat, x: string, y: string)
    requires TempPath(TempDir(root, i), m, x) == TempPath(TempDir(root, j), n, y)
    ensures i == j && m == n && x == y
  {
    var pageI, pageJ := Padded(m) + ['.'] + x, Padded(n) + ['.'] + y;
    Regroup(root, i, m, x);
    Regroup(root, j, n, y);
    CancelPrefix(root + "/job-", Dec(i) + ['/'] + ("page-" + pageI), Dec(j) + ['/'] + ("page-" + pageJ));
    CutAtSeparator(Dec(i), Dec(j), "page-" + pageI, "page-" + pageJ, '/');
    CancelPrefix("page-", pageI, pageJ);
    CutAtSeparator(Padded(m), Padded(n), x, y, '.');
    FormatsInjective(i, j);
    FormatsInjective(m, n);
  }

  lemma NamesUnique(root: string, i: nat, j: nat, m: nat, n: nat, p: string)
    requires Names(root, i, m, p) && Names(root, j, n, p)
    ensures i == j && m == n
  {
    var x :| p == TempPath(TempDir(root, i), m, x);
    var y :| p == TempPath(TempDir(root, j), n, y);
    PathsInjective(root, i, j, m, n, x, y);
  }
}
