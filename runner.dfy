/**
 * What driving a batch of tasks does to the world: the mirror's files,
 * the responses still to come, and the log of requests sent. A task is
 * downloaded by one bounded retrieval of `url/task` written (on a 200)
 * to the task's local path; the runner skips tasks already done.
 */
module Runner {
  import opened Common
  import opened Paths
  import opened Fetching

  /** One HTTP GET as sent: the URL, the header map and the timeout. */
  datatype Request = Request(url: string, headers: map<string, string>, timeout: int)

  /** The arguments `process_tasks` forwards to every worker call. */
  datatype Config = Config(url: string, directory: string, retry: int, timeout: int,
                           headers: map<string, string>)

  /** The mirror's files by path, the responses still to come, and the requests sent so far. */
  datatype World = World(files: map<string, Bytes>, network: seq<Outcome>, sent: seq<Request>)

  /** n copies of a request: the log of n attempts. */
  function Repeat(request: Request, n: nat): (r: seq<Request>)
    ensures |r| == n && forall k :: 0 <= k < n ==> r[k] == request
  {
    if n == 0 then [] else Repeat(request, n - 1) + [request]
  }

  /** The effect of one `fetch_file` call on the world. */
  function FetchEffect(w: World, request: Request, localPath: string, retry: int): World {
    var r := Fetch(w.network, retry);
    World(if r.written.Some? then w.files[localPath := r.written.value] else w.files,
          Drop(w.network, r.attempts),
          w.sent + Repeat(request, r.attempts))
  }

  /** The effect of one `DownloadWorker` call. */
  function Download(w: World, task: string, cfg: Config): World {
    FetchEffect(w, Request(RemotePath(cfg.url, task), cfg.headers, cfg.timeout),
                LocalPath(cfg.directory, task), cfg.retry)
  }

  /**
   * The tasks the runner hands to the worker: those not in `done`, in
   * input order, each as often as it occurs.
   */
  function Pending(tasks: seq<string>, done: set<string>): seq<string>
    decreases |tasks|
  {
    if tasks == [] then []
    else
      var last := tasks[|tasks| - 1];
      Pending(tasks[..|tasks| - 1], done) + (if last in done then [] else [last])
  }

  /** A task not in `done` is handed on as often as it occurs; a done task never. */
  lemma {:induction false} PendingCounts(tasks: seq<string>, done: set<string>, t: string)
    ensures multiset(Pending(tasks, done))[t] == if t in done then 0 else multiset(tasks)[t]
    decreases |tasks|
  {
    if tasks != [] {
      var init, last := tasks[..|tasks| - 1], tasks[|tasks| - 1];
      assert tasks == init + [last];
      PendingCounts(init, done, t);
    }
  }

  /** One more input task: it is appended to the handed-on tasks unless it is done. */
  lemma PendingStep(tasks: seq<string>, i: nat, done: set<string>)
    requires i < |tasks|
    ensures tasks[i] in done ==> Pending(tasks[..i + 1], done) == Pending(tasks[..i], done)
    ensures tasks[i] !in done ==> Pending(tasks[..i + 1], done) == Pending(tasks[..i], done) + [tasks[i]]
  {
    assert tasks[..i + 1][..i] == tasks[..i];
    assert Pending(tasks[..i], done) + [] == Pending(tasks[..i], done);
  }

  /** Filtering keeps the order: it distributes over concatenation. */
  lemma {:induction false} PendingAppend(a: seq<string>, b: seq<string>, done: set<string>)
    ensures Pending(a + b, done) == Pending(a, done) + Pending(b, done)
    decreases |b|
  {
    if b != [] {
      var init, last := b[..|b| - 1], b[|b| - 1];
      var tail := if last in done then [] else [last];
      assert (a + b)[..|a + b| - 1] == a + init && (a + b)[|a + b| - 1] == last;
      calc {
        Pending(a + b, done);
        Pending(a + init, done) + tail;
        { PendingAppend(a, init, done); }
        (Pending(a, done) + Pending(init, done)) + tail;
        Pending(a, done) + (Pending(init, done) + tail);
      }
    } else {
      assert a + b == a;
    }
  }

  /** With nothing done every task is handed on, duplicates included. */
  lemma {:induction false} PendingNothingDone(tasks: seq<string>)
    ensures Pending(tasks, {}) == tasks
    decreases |tasks|
  {
    if tasks != [] {
      PendingNothingDone(tasks[..|tasks| - 1]);
      assert tasks == tasks[..|tasks| - 1] + [tasks[|tasks| - 1]];
    }
  }

  /** The world after downloading the tasks one after another. */
  function RunTasks(w: World, tasks: seq<string>, cfg: Config): World
    decreases |tasks|
  {
    if tasks == [] then w
    else Download(RunTasks(w, tasks[..|tasks| - 1], cfg), tasks[|tasks| - 1], cfg)
  }

  /** Running one more task after a batch is downloading it into the batch's world. */
  lemma RunTasksSnoc(w: World, tasks: seq<string>, task: string, cfg: Config)
    ensures RunTasks(w, tasks + [task], cfg) == Download(RunTasks(w, tasks, cfg), task, cfg)
  {
    assert (tasks + [task])[..|tasks|] == tasks;
  }

  /** Running two batches in turn is running their concatenation. */
  lemma {:induction false} RunTasksAppend(w: World, a: seq<string>, b: seq<string>, cfg: Config)
    ensures RunTasks(RunTasks(w, a, cfg), b, cfg) == RunTasks(w, a + b, cfg)
    decreases |b|
  {
    if b == [] {
      assert a + b == a;
    } else {
      var init := b[..|b| - 1];
      assert (a + b)[..|a + b| - 1] == a + init;
      RunTasksAppend(w, a, init, cfg);
    }
  }

  /** `p` is the local path of none of the tasks. */
  predicate OutsideTasks(p: string, tasks: seq<string>, directory: string) {
    forall t :: t in tasks ==> LocalPath(directory, t) != p
  }

  /** A file whose path is not the local path of some task is left as it was. */
  lemma {:induction false} RunTasksTouchesOnlyTaskPaths(w: World, tasks: seq<string>, cfg: Config, p: string)
    requires OutsideTasks(p, tasks, cfg.directory)
    ensures p in RunTasks(w, tasks, cfg).files <==> p in w.files
    ensures p in w.files ==> RunTasks(w, tasks, cfg).files[p] == w.files[p]
    decreases |tasks|
  {
    if tasks != [] {
      var init := tasks[..|tasks| - 1];
      assert tasks[|tasks| - 1] in tasks;
      assert OutsideTasks(p, init, cfg.directory) by {
        forall t | t in init ensures LocalPath(cfg.directory, t) != p {
          assert t in tasks;
        }
      }
      RunTasksTouchesOnlyTaskPaths(w, init, cfg, p);
    }
  }

  /** Every request sent for a batch asks for `url/task` of one of its tasks, with the configured headers and timeout. */
  predicate RequestOfTasks(r: Request, tasks: seq<string>, cfg: Config) {
    r.headers == cfg.headers && r.timeout == cfg.timeout
    && exists t :: t in tasks && r.url == RemotePath(cfg.url, t)
  }

  /** Dropping n responses and then m is dropping n + m. */
  lemma {:induction false} DropDrop(network: seq<Outcome>, n: nat, m: nat, k: nat)
    requires k == n + m
    ensures Drop(Drop(network, n), m) == Drop(network, k)
  {
    if n > 0 {
      DropDrop(Rest(network), n - 1, m, k - 1);
    }
  }

  /** w' is w after some requests: each logged request took one outcome from the stream. */
  predicate Consumed(w: World, w': World) {
    |w.sent| <= |w'.sent| && w'.network == Drop(w.network, |w'.sent| - |w.sent|)
  }

  lemma ConsumedTrans(w: World, v: World, w': World)
    requires Consumed(w, v) && Consumed(v, w')
    ensures Consumed(w, w')
  {
    DropDrop(w.network, |v.sent| - |w.sent|, |w'.sent| - |v.sent|, |w'.sent| - |w.sent|);
  }

  /** One download logs one request per attempt and consumes one outcome per attempt. */
  lemma DownloadConsumes(w: World, task: string, cfg: Config)
    ensures Consumed(w, Download(w, task, cfg))
  {
    var a := Fetch(w.network, cfg.retry).attempts;
    assert |Download(w, task, cfg).sent| == |w.sent| + a;
  }

  /**
   * What one worker call does to the mirror: only the task's local path can
   * change, and it changes exactly when the attempt that ended the retrieval
   * was a 200, to that response's body, unchanged.
   */
  lemma {:induction false} DownloadWrites(w: World, task: string, cfg: Config)
    ensures var w', p := Download(w, task, cfg), LocalPath(cfg.directory, task);
      var r := Fetch(w.network, cfg.retry);
      && (forall q :: q != p ==> (q in w'.files <==> q in w.files))
      && (forall q :: q != p && q in w.files ==> w'.files[q] == w.files[q])
      && (r.ok <==> r.attempts > 0 && Classify(At(w.network, r.attempts - 1)).Present?)
      && (r.ok ==> p in w'.files && w'.files[p] == At(w.network, r.attempts - 1).body)
      && (!r.ok ==> w'.files == w.files)
  {
    FetchCharacterized(w.network, cfg.retry);
  }

  /**
   * The log a batch leaves: the old log is kept and at most `retry`
   * requests are added per task.
   */
  lemma {:induction false} RunTasksSentBound(w: World, tasks: seq<string>, cfg: Config)
    ensures var w' := RunTasks(w, tasks, cfg);
      |w.sent| <= |w'.sent| <= |w.sent| + |tasks| * Max0(cfg.retry) && w'.sent[..|w.sent|] == w.sent
    decreases |tasks|
  {
    if tasks != [] {
      var init := tasks[..|tasks| - 1];
      RunTasksSentBound(w, init, cfg);
      var v := RunTasks(w, init, cfg);
      var w' := RunTasks(w, tasks, cfg);
      assert w'.sent[..|v.sent|] == v.sent;
      assert (|tasks| - 1) * Max0(cfg.retry) + Max0(cfg.retry) == |tasks| * Max0(cfg.retry);
    }
  }

  /** Each response consumed from the stream answers exactly one logged request. */
  lemma {:induction false} RunTasksConsumesOnePerRequest(w: World, tasks: seq<string>, cfg: Config)
    ensures Consumed(w, RunTasks(w, tasks, cfg))
    decreases |tasks|
  {
    if tasks != [] {
      var init := tasks[..|tasks| - 1];
      RunTasksConsumesOnePerRequest(w, init, cfg);
      var v := RunTasks(w, init, cfg);
      var w' := Download(v, tasks[|tasks| - 1], cfg);
      assert RunTasks(w, tasks, cfg) == w';
      DownloadConsumes(v, tasks[|tasks| - 1], cfg);
      ConsumedTrans(w, v, w');
    } else {
      assert Drop(w.network, 0) == w.network;
    }
  }

  /** Every request a batch sends is for `url/task` of one of its tasks, with the configured headers and timeout. */
  lemma {:induction false} RunTasksRequestsOfTasks(w: World, tasks: seq<string>, cfg: Config)
    ensures forall k :: |w.sent| <= k < |RunTasks(w, tasks, cfg).sent| ==>
              RequestOfTasks(RunTasks(w, tasks, cfg).sent[k], tasks, cfg)
    decreases |tasks|
  {
    if tasks != [] {
      var init := tasks[..|tasks| - 1];
      var last := tasks[|tasks| - 1];
      RunTasksRequestsOfTasks(w, init, cfg);
      var v := RunTasks(w, init, cfg);
      var w' := RunTasks(w, tasks, cfg);
      assert w'.sent == v.sent + Repeat(Request(RemotePath(cfg.url, last), cfg.headers, cfg.timeout),
                                        Fetch(v.network, cfg.retry).attempts);
      forall k | |w.sent| <= k < |w'.sent| ensures RequestOfTasks(w'.sent[k], tasks, cfg) {
        if k < |v.sent| {
          assert w'.sent[k] == v.sent[k];
          assert RequestOfTasks(v.sent[k], init, cfg);
          var t :| t in init && v.sent[k].url == RemotePath(cfg.url, t);
          assert t in tasks;
        } else {
          assert last in tasks;
        }
      }
    }
  }
}
