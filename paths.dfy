/**
 * The strings that locate a task: the normalised base URL and output
 * directory (`rstrip("/")`), the remote URL `url + "/" + task`, and the
 * local path `os.path.join(directory, task.lstrip("/"))`.
 */
module Paths {

  /** `s.rstrip("/")`: s without every trailing '/'. */
  function RStripSlash(s: string): (r: string)
    ensures |r| <= |s| && r == s[..|r|]
    ensures r == [] || r[|r| - 1] != '/'
    ensures forall k :: |r| <= k < |s| ==> s[k] == '/'
    decreases |s|
  {
    if |s| > 0 && s[|s| - 1] == '/' then RStripSlash(s[..|s| - 1]) else s
  }

  /** `s.lstrip("/")`: s without every leading '/'. */
  function LStripSlash(s: string): (r: string)
    ensures |r| <= |s| && r == s[|s| - |r|..]
    ensures r == [] || r[0] != '/'
    ensures forall k :: 0 <= k < |s| - |r| ==> s[k] == '/'
    decreases |s|
  {
    if |s| > 0 && s[0] == '/' then LStripSlash(s[1..]) else s
  }

  /**
   * `os.path.join(a, b)` on POSIX: an absolute b replaces a; otherwise b is
   * appended, with a '/' between unless a is empty or already ends in '/'.
   */
  function Join(a: string, b: string): string {
    if |b| > 0 && b[0] == '/' then b
    else if a == [] || a[|a| - 1] == '/' then a + b
    else a + "/" + b
  }

  /** The URL requested for a task: the base URL, '/', and the task unchanged. */
  function RemotePath(url: string, task: string): string {
    url + "/" + task
  }

  /**
   * The requested URL is the base URL, one '/', and the task, so under one
   * base URL it identifies the task.
   */
  lemma RemotePathInjective(url: string, task: string, task': string)
    ensures RemotePath(url, task)[..|url|] == url && RemotePath(url, task)[|url|] == '/'
    ensures RemotePath(url, task)[|url| + 1..] == task
    ensures RemotePath(url, task) == RemotePath(url, task') ==> task == task'
  {
    assert RemotePath(url, task)[|url| + 1..] == task;
    assert RemotePath(url, task')[|url| + 1..] == task';
  }

  /**
   * The mirror path written for a task. Because leading '/' are stripped
   * first, the result always begins with the directory: an absolute task
   * cannot replace it. A non-empty directory with no trailing '/' (what
   * `rstrip` leaves) is followed by exactly one '/'.
   */
  function LocalPath(directory: string, task: string): (r: string)
    ensures |r| >= |directory| && r[..|directory|] == directory
    ensures directory != [] && directory[|directory| - 1] != '/' ==>
              r == directory + "/" + LStripSlash(task)
    ensures directory == [] ==> r == LStripSlash(task)
  {
    var rest := LStripSlash(task);
    JoinRelative(directory, rest);
    Join(directory, rest)
  }

  /** Joining a relative path keeps the directory as a prefix. */
  lemma JoinRelative(directory: string, rest: string)
    requires rest == [] || rest[0] != '/'
    ensures |Join(directory, rest)| >= |directory|
    ensures Join(directory, rest)[..|directory|] == directory
    ensures directory != [] && directory[|directory| - 1] != '/' ==>
              Join(directory, rest) == directory + "/" + rest
    ensures directory == [] ==> Join(directory, rest) == rest
  {
    if directory == [] {
      assert directory + rest == rest;
    } else if directory[|directory| - 1] == '/' {
      assert (directory + rest)[..|directory|] == directory;
    } else {
      assert (directory + "/" + rest)[..|directory|] == directory;
    }
  }

  /**
   * Without the strip, `os.path.join` would drop the directory for an
   * absolute task; with it, the task lands beneath the directory.
   */
  lemma {:induction false} AbsoluteTaskStaysBelow(directory: string, rest: string)
    requires directory != [] && directory[|directory| - 1] != '/'
    requires rest == [] || rest[0] != '/'
    ensures Join(directory, "/" + rest) == "/" + rest
    ensures LocalPath(directory, "/" + rest) == directory + "/" + rest
  {
    assert ("/" + rest)[1..] == rest;
  }

  /** `..` segments are not rejected: they pass through into the local path. */
  lemma {:induction false} ParentSegmentsPassThrough(directory: string, rest: string)
    requires directory != [] && directory[|directory| - 1] != '/'
    ensures LocalPath(directory, "../" + rest) == directory + "/../" + rest
  {
    assert LStripSlash("../" + rest) == "../" + rest;
  }

  /** An output directory made only of '/' normalises to "", so the mirror lands in the working directory. */
  lemma {:induction false} SlashOnlyDirectoryBecomesRelative(directory: string, task: string)
    requires forall k :: 0 <= k < |directory| ==> directory[k] == '/'
    ensures RStripSlash(directory) == []
    ensures LocalPath(RStripSlash(directory), task) == LStripSlash(task)
  {
  }
}
