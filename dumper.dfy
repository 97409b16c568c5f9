/**
 * The dumper as it runs: the local mirror and the network it reads from,
 * with `fetch_file`, `DownloadWorker`, `process_tasks`, `fetch_git` and
 * the argument handling of `main` as methods that change them.
 */
module Dumper {
  import opened Common
  import opened Paths
  import opened Headers
  import opened Fetching
  import opened Hex
  import opened Batches
  import opened Runner

  /** How `main` ends. */
  datatype Exit =
    | HeaderError     // a `-H` argument without '=': the unpacking raises before any I/O
    | DirectoryError  // `os.makedirs("")` raises for an empty output directory
    | Completed       // the whole sweep ran

  class Mirror {
    /** The files of the output directory, by path. */
    var files: map<string, Bytes>
    /** The outcomes the network will give to the coming requests, in order. */
    var network: seq<Outcome>
    /** Every request sent so far. */
    ghost var sent: seq<Request>
    /** Every task handed to the worker so far. */
    ghost var trace: seq<string>

    ghost function Current(): World
      reads this
    {
      World(files, network, sent)
    }

    constructor (files: map<string, Bytes>, network: seq<Outcome>)
      ensures this.files == files && this.network == network
      ensures sent == [] && trace == []
    {
      this.files := files;
      this.network := network;
      sent := [];
      trace := [];
    }

    /** `requests.get`: sends one request and takes the next outcome from the network. */
    method Get(request: Request) returns (outcome: Outcome)
      modifies this
      ensures outcome == Next(old(network)) && network == Rest(old(network))
      ensures sent == old(sent) + [request]
      ensures files == old(files) && trace == old(trace)
    {
      outcome := Next(network);
      network := Rest(network);
      sent := sent + [request];
    }

    /**
     * `fetch_file`: up to `retry` attempts; a 200 writes the body to
     * `localPath` and succeeds, a 404 fails at once, anything else tries
     * again.
     */
    method FetchFile(url: string, localPath: string, retry: int, timeout: int,
                     headers: map<string, string>) returns (ok: bool)
      modifies this
      ensures ok == Fetch(old(network), retry).ok
      ensures Current() == FetchEffect(old(Current()), Request(url, headers, timeout), localPath, retry)
      ensures trace == old(trace)
    {
      var request := Request(url, headers, timeout);
      ghost var run := Fetch(old(network), retry);
      var attempt := 0;
      while attempt < retry
        invariant 0 <= attempt <= Max0(retry)
        invariant run == Shifted(Fetch(network, retry - attempt), attempt)
        invariant network == Drop(old(network), attempt)
        invariant sent == old(sent) + Repeat(request, attempt)
        invariant files == old(files) && trace == old(trace)
      {
        DropNext(old(network), attempt);
        var response := Get(request);
        assert sent == old(sent) + Repeat(request, attempt + 1);
        match response {
          case Response(status, body) =>
            if status == 200 {
              assert run == FetchRun(true, attempt + 1, Some(body));
              files := files[localPath := body];
              return true;
            } else if status == 404 {
              assert run == FetchRun(false, attempt + 1, None);
              return false;
            }
          case Raised =>
        }
        attempt := attempt + 1;
      }
      assert run == FetchRun(false, attempt, None);
      return false;
    }

    /** `DownloadWorker`: fetch `url/task` into the task's path beneath the directory. */
    method DownloadWorker(task: string, cfg: Config)
      modifies this
      ensures Current() == Download(old(Current()), task, cfg)
      ensures trace == old(trace)
    {
      var remotePath := RemotePath(cfg.url, task);
      var localPath := LocalPath(cfg.directory, task);
      var _ := FetchFile(remotePath, localPath, cfg.retry, cfg.timeout, cfg.headers);
    }

    /** `process_tasks`: hand each task not in `tasksDone` to the worker, in order. */
    method ProcessTasks(tasks: seq<string>, cfg: Config, tasksDone: set<string>)
      modifies this
      ensures trace == old(trace) + Pending(tasks, tasksDone)
      ensures Current() == RunTasks(old(Current()), Pending(tasks, tasksDone), cfg)
    {
      for i := 0 to |tasks|
        invariant trace == old(trace) + Pending(tasks[..i], tasksDone)
        invariant Current() == RunTasks(old(Current()), Pending(tasks[..i], tasksDone), cfg)
      {
        var task := tasks[i];
        PendingStep(tasks, i, tasksDone);
        if task in tasksDone {
          continue;
        }
        ghost var done := Pending(tasks[..i], tasksDone);
        RunTasksSnoc(old(Current()), done, task, cfg);
        AppendAssoc(old(trace), done, [task]);
        trace := trace + [task];
        DownloadWorker(task, cfg);
      }
      assert tasks[..|tasks|] == tasks;
    }

    /** One pass of the object loop: the task for (i, j), run on its own. */
    method FetchObjectDir(i: nat, j: nat, cfg: Config)
      requires i < 256 && j < 256
      modifies this
      ensures trace == old(trace) + [ObjectTask(i, j)]
      ensures Current() == RunTasks(old(Current()), [ObjectTask(i, j)], cfg)
    {
      var task := ObjectsPrefix + ObjectSubdir(i, j);
      ProcessTasks([task], cfg, {});
      PendingNothingDone([task]);
    }

    /** The inner loop of the object sweep: the 256 tasks whose first byte is i, j ascending. */
    method FetchObjectRow(i: nat, cfg: Config)
      requires i < 256
      modifies this
      ensures trace == old(trace) + Row(i)
      ensures Current() == RunTasks(old(Current()), Row(i), cfg)
    {
      ghost var start := Current();
      for j := 0 to 256
        invariant trace == old(trace) + Row(i)[..j]
        invariant Current() == RunTasks(start, Row(i)[..j], cfg)
      {
        FetchObjectDir(i, j, cfg);
        ObjectRowStep(start, old(trace), i, j, cfg);
      }
      assert Row(i)[..256] == Row(i);
    }

    /** The object sweep of `fetch_git`: one task per byte pair, i outer and j inner. */
    method FetchObjects(cfg: Config)
      modifies this
      ensures trace == old(trace) + ObjectTasks()
      ensures Current() == RunTasks(old(Current()), ObjectTasks(), cfg)
    {
      ghost var start := Current();
      for i := 0 to 256
        invariant trace == old(trace) + Rows(i)
        invariant Current() == RunTasks(start, Rows(i), cfg)
      {
        FetchObjectRow(i, cfg);
        ObjectSweepStep(start, old(trace), i, cfg);
      }
      RowsComplete();
    }

    /** `fetch_git`: the common files, then the refs, then every object subdirectory. */
    method FetchGit(url: string, directory: string, retry: int, timeout: int,
                    headers: map<string, string>) returns (code: int)
      modifies this
      ensures code == 0
      ensures trace == old(trace) + CommonFiles + Refs + ObjectTasks()
      ensures Current() == RunTasks(old(Current()), AllTasks(), Config(url, directory, retry, timeout, headers))
    {
      var cfg := Config(url, directory, retry, timeout, headers);
      ghost var start := Current();
      ProcessTasks(CommonFiles, cfg, {});
      PendingNothingDone(CommonFiles);
      ProcessTasks(Refs, cfg, {});
      PendingNothingDone(Refs);
      RunTasksAppend(start, CommonFiles, Refs, cfg);
      FetchObjects(cfg);
      RunTasksAppend(start, CommonFiles + Refs, ObjectTasks(), cfg);
      return 0;
    }

    /**
     * `main` after argument parsing: build the header map, create the
     * output directory, then run the sweep on the URL and directory with
     * their trailing '/' removed.
     */
    method Run(url: string, directory: string, retry: int, timeout: int,
               headerArgs: seq<string>) returns (exit: Exit)
      modifies this
      ensures HeaderMap(headerArgs).None? ==> exit == HeaderError && unchanged(this)
      ensures HeaderMap(headerArgs).Some? && directory == [] ==>
                exit == DirectoryError && unchanged(this)
      ensures HeaderMap(headerArgs).Some? && directory != [] ==>
                && exit == Completed
                && trace == old(trace) + CommonFiles + Refs + ObjectTasks()
                && Current() == RunTasks(old(Current()), AllTasks(),
                     Config(RStripSlash(url), RStripSlash(directory), retry, timeout,
                            HeaderMap(headerArgs).value))
    {
      var headers := BuildHeaders(headerArgs);
      if headers.None? {
        return HeaderError;
      }
      if directory == [] {
        return DirectoryError;
      }
      var _ := FetchGit(RStripSlash(url), RStripSlash(directory), retry, timeout, headers.value);
      return Completed;
    }
  }

  /** One pass of the inner loop extends the swept part of row i by one task. */
  lemma ObjectRowStep(start: World, log: seq<string>, i: nat, j: nat, cfg: Config)
    requires i < 256 && j < 256
    ensures RunTasks(RunTasks(start, Row(i)[..j], cfg), [ObjectTask(i, j)], cfg)
            == RunTasks(start, Row(i)[..j + 1], cfg)
    ensures log + Row(i)[..j] + [ObjectTask(i, j)] == log + Row(i)[..j + 1]
  {
    assert Row(i)[..j + 1] == Row(i)[..j] + [ObjectTask(i, j)];
    RunTasksAppend(start, Row(i)[..j], [ObjectTask(i, j)], cfg);
    AppendAssoc(log, Row(i)[..j], [ObjectTask(i, j)]);
  }

  /** One pass of the outer loop extends the swept rows by row i. */
  lemma ObjectSweepStep(start: World, log: seq<string>, i: nat, cfg: Config)
    requires i < 256
    ensures RunTasks(RunTasks(start, Rows(i), cfg), Row(i), cfg) == RunTasks(start, Rows(i + 1), cfg)
    ensures log + Rows(i) + Row(i) == log + Rows(i + 1)
  {
    RunTasksAppend(start, Rows(i), Row(i), cfg);
    AppendAssoc(log, Rows(i), Row(i));
  }

  lemma AppendAssoc<T>(a: seq<T>, b: seq<T>, c: seq<T>)
    ensures (a + b) + c == a + (b + c)
  {
  }

  /** A retrieval seen after `attempt` transient attempts already made. */
  function Shifted(r: FetchRun, attempt: nat): FetchRun {
    FetchRun(r.ok, r.attempts + attempt, r.written)
  }
}
