# git-dumper, modelled in Dafny

git-dumper rebuilds a `.git` directory that a web server exposes by mistake.
It asks the server for a fixed list of metadata and hook files, then for a
fixed list of ref and reflog locations, then for every two-level loose-object
subdirectory `.git/objects/xx/yy`. Each retrieval gets a bounded number of
attempts. A 200 response is written into a local mirror under the same relative
path. A 404 ends the retrieval at once. Any other status, or a request
exception, uses up one attempt.

This project models that engine with the network and the disk abstracted away:

- `Hex`: the `{:02x}` rendering of a byte value, and its inverse.
- `Batches`: the common-file and ref batches, the 65,536 object tasks produced
  by the nested loops, and their order.
- `Paths`: `url.rstrip("/")` and `directory.rstrip("/")`, the remote URL
  `url + "/" + task`, and the local path `os.path.join(directory, task.lstrip("/"))`.
  `os.path.join` follows its POSIX definition.
- `Headers`: the header dictionary built by `main`. It starts from the default
  `User-Agent` entry. Each `-H` argument is split at its first `=` and both
  halves are stripped with Python's `str.strip()` whitespace set. Pairs are
  inserted in order, so a later key overwrites an earlier one.
- `Fetching`: one retrieval as a pure function of the coming network outcomes
  and the retry count. Each outcome is a response with a status and a body, or a
  raised request exception.
- `Runner`: what downloading a batch of tasks does to the world. The world is
  the mirror's files, the outcomes still to come, and the log of requests sent.
  This module also gives the tasks the runner skips.
- `Dumper`: class `Mirror`, the running program. Its fields are the mirror (a
  map from path to bytes) and the network (the outcomes still to come, one per
  request). Ghost logs record the requests sent and the tasks handed to the
  worker. `fetch_file`, `DownloadWorker`, `process_tasks`, `fetch_git` and the
  part of `main` after argument parsing are its methods. `fetch_file`,
  `process_tasks` and `fetch_git` keep their loops; `DownloadWorker` and
  `main` have none. Each method is proved against the functions of
  `Fetching` and `Runner`, and `main` also against `Headers.HeaderMap`. The
  header loop of `main` is the method `Headers.BuildHeaders`, proved against
  the same function.

Behaviour of the code worth knowing:

- The code does not reject `..` segments in a task. It only strips leading `/`.
  `Paths.ParentSegmentsPassThrough` shows that such a segment reaches the local
  path.
- Nothing is ever added to `tasks_done`. So a task listed twice
  (`.git/packed-refs`) is fetched twice.
- The `jobs` value is accepted but ignored. Everything runs in sequence.

The network is a stream of outcomes. Each request takes the next one. Once the
stream is exhausted, every further request raises. A retrieval of the same task
twice can therefore see different answers, as it can against a real server.

## Model

| member | source | states |
|---|---|---|
| `Hex.Hex2` | git_dumper.py:110 | `{:02x}` of a value below 256 is exactly two characters, each a lower-case hexadecimal digit |
| `Hex.Hex2RoundTrip` | git_dumper.py:110 | decoding the rendering of n gives n back |
| `Hex.ParseHex2Canonical` | git_dumper.py:110 | every string the decoder accepts is the rendering of the value it decodes to, so the rendering is the only spelling |
| `Hex.Hex2Injective` | git_dumper.py:110 | distinct byte values get distinct renderings |
| `Batches.ObjectTaskRoundTrip` | git_dumper.py:110-111 | each object task is the 18-character `.git/objects/xx/yy`, with the prefix and the `/` in place, and it decodes back to its pair (i, j) |
| `Batches.ParseObjectTaskCanonical` | git_dumper.py:110-111 | every string of the object shape that decodes is the task of the pair it decodes to |
| `Batches.ObjectTaskInjective` | git_dumper.py:110-111 | distinct pairs give distinct tasks |
| `Batches.ObjectTasks` | git_dumper.py:108-112 | the object batch has exactly 256 × 256 = 65,536 tasks |
| `Batches.ObjectTasksExactlyOnce` | git_dumper.py:108-112 | pair (i, j) stands at position 256·i + j and nowhere else: each pair is issued once, in lexicographic (i, j) order |
| `Batches.ObjectTasksDistinct` | git_dumper.py:108-112 | no task occurs twice in the object batch |
| `Batches.AllTasks` | git_dumper.py:38-112 | fetch_git issues 18 + 41 + 65,536 tasks in all |
| `Batches.PackedRefsIssuedTwice` | git_dumper.py:61-104 | `.git/packed-refs` is both the 3rd and the 19th ref task, so it is issued twice |
| `Paths.RStripSlash` | git_dumper.py:136 | `rstrip("/")` returns a prefix with no trailing `/`, and everything it removed was `/` |
| `Paths.LStripSlash` | git_dumper.py:33 | `lstrip("/")` returns a suffix with no leading `/`, and everything it removed was `/` |
| `Paths.RemotePathInjective` | git_dumper.py:32 | `RemotePath`, the f-string `{url}/{task}`: the requested URL is the base URL, one `/` and the task unchanged, so under one base URL distinct tasks request distinct URLs |
| `Paths.JoinRelative` | git_dumper.py:33 | `Join`, POSIX `os.path.join`, with a relative second part: the directory stays a prefix, one `/` is inserted after a non-empty directory that does not end in `/`, and an empty directory leaves the part alone (the absolute case is in `AbsoluteTaskStaysBelow`) |
| `Paths.LocalPath` | git_dumper.py:33 | the local path always begins with the directory; under a normalised non-empty directory it is `directory + "/" + task.lstrip("/")`, and under an empty directory it is the stripped task |
| `Paths.AbsoluteTaskStaysBelow` | git_dumper.py:33 | `os.path.join` alone would replace the directory with an absolute task, but after the strip the task lands beneath the directory |
| `Paths.ParentSegmentsPassThrough` | git_dumper.py:33 | a `../` task is not rejected and appears unchanged in the local path |
| `Paths.SlashOnlyDirectoryBecomesRelative` | git_dumper.py:136 | an output directory made only of `/` normalises to the empty string, so local paths become relative to the working directory |
| `Headers.Strip` | git_dumper.py:130 | `strip()` never lengthens its argument, and a non-empty result neither starts nor ends with whitespace |
| `Headers.StripCharacterized` | git_dumper.py:130 | `strip()` returns the infix left after removing leading and trailing whitespace; the removed characters are all whitespace and the result neither starts nor ends with whitespace |
| `Headers.SplitAtEquals` | git_dumper.py:129 | `split("=", 1)` unpacks into two parts exactly when `=` occurs, and then the argument is key + `=` + value with no `=` in the key |
| `Headers.ParseHeader` | git_dumper.py:129-130 | an argument yields a stripped (key, value) pair exactly when it contains `=` |
| `Headers.Insert` | git_dumper.py:126-130 | the dictionary after inserting the pairs in order always holds `User-Agent`, and has at most one key per pair besides it |
| `Headers.HeaderMap` | git_dumper.py:126-130 | when header building succeeds, the dictionary holds `User-Agent` and at most one key per argument besides it |
| `Headers.BuildHeaders` | git_dumper.py:126-130 | the loop that fills the dictionary yields the in-order insertion map, or fails when some argument lacks `=` |
| `Headers.HeaderMapDefinedIff` | git_dumper.py:127-129 | header building succeeds exactly when every argument contains `=` |
| `Headers.HeaderMapIsInsert` | git_dumper.py:126-130 | for well-formed arguments the dictionary is the default entry followed by the parsed pairs inserted in order |
| `Headers.InsertKeys` | git_dumper.py:126-130 | the keys are `User-Agent` and the key of every argument, and no others |
| `Headers.InsertLaterWins` | git_dumper.py:128-130 | a key is bound to the value of its last occurrence |
| `Headers.InsertKeepsDefault` | git_dumper.py:126 | in the header dictionary, `User-Agent: git-dumper/1.0` survives unless an argument key is exactly `User-Agent` |
| `Fetching.Classify` | git_dumper.py:16-28 | an outcome ends the retrieval with its body exactly when it is a 200 response, ends it without a write exactly when it is a 404, and otherwise (another status or a raised request exception) uses up the attempt |
| `Fetching.Fetch` | git_dumper.py:12-14 | a retrieval makes at most `retry` attempts, and none when `retry <= 0` |
| `Fetching.FetchCharacterized` | git_dumper.py:12-29 | every attempt before the last was a non-200, non-404 status or an exception; it stops early only on a 200 or a 404; a positive `retry` makes at least one attempt; it succeeds exactly when the last attempt was a 200; and it writes that response's body, unchanged, exactly when it succeeds |
| `Fetching.NotFoundUsesOneAttempt` | git_dumper.py:22-24 | a 404 on the first attempt ends the retrieval after that one attempt, whatever `retry` is, with no write |
| `Fetching.AllTransientExhausts` | git_dumper.py:25-29 | when no attempt in reach is a 200 or a 404, all `retry` attempts are spent, the result is false and nothing is written |
| `Runner.PendingCounts` | git_dumper.py:6-10 | `Pending`, the tasks the runner hands on: each task not in `tasks_done` is handed to the worker as often as it occurs in the input, and a task in `tasks_done` never |
| `Runner.PendingAppend` | git_dumper.py:7-10 | `Pending` keeps input order: skipping distributes over concatenation |
| `Runner.PendingNothingDone` | git_dumper.py:6-10 | with the empty `tasks_done` every task is handed on, duplicates included |
| `Runner.DownloadWrites` | git_dumper.py:12-34 | `Download` (through `FetchEffect`), one worker call: no key of the mirror map other than the task's local path is created, changed or removed; the retrieval succeeds exactly when its last attempt was a 200, and then the local path holds that response's body, unchanged; otherwise the mirror is unchanged |
| `Runner.RunTasksAppend` | git_dumper.py:58-112 | `RunTasks`, the effect of downloading a batch in order: running the batches one after another is running their concatenation |
| `Runner.RunTasksTouchesOnlyTaskPaths` | git_dumper.py:31-34 | under `RunTasks`, a key of the mirror map that is not the local path of one of the batch's tasks is neither created, changed nor removed |
| `Runner.RunTasksSentBound` | git_dumper.py:12-34 | a batch keeps the earlier request log and adds at most `retry` requests per task |
| `Runner.RunTasksConsumesOnePerRequest` | git_dumper.py:13-15 | the request log only grows, and the network left after a batch is the old stream with exactly one outcome consumed per request logged |
| `Runner.RunTasksRequestsOfTasks` | git_dumper.py:15-34 | every request a batch sends is for `url + "/" + task` of one of its tasks, with the configured header map and timeout |
| `Dumper.Mirror.Get` | git_dumper.py:15 | a request takes the next outcome of the network and is logged with its URL, headers and timeout |
| `Dumper.Mirror.FetchFile` | git_dumper.py:12-29 | the result is `Fetch`'s result; the mirror gains the written body at the local path and nothing else; one request is logged per attempt and one outcome consumed per attempt |
| `Dumper.Mirror.DownloadWorker` | git_dumper.py:31-34 | fetches `url + "/" + task` into `os.path.join(directory, task.lstrip("/"))` with the configured retry, timeout and headers |
| `Dumper.Mirror.ProcessTasks` | git_dumper.py:6-10 | the worker is called for exactly the tasks not in `tasks_done`, in input order, and the world is the result of downloading them in turn |
| `Dumper.Mirror.FetchObjectDir` | git_dumper.py:110-112 | one pass of the inner loop hands the single task `.git/objects/` + hex(i) + `/` + hex(j) to the runner |
| `Batches.RowsArePrefix` | git_dumper.py:108-112 | the first n passes of the outer loop, each running the inner loop over j, issue exactly the first 256·n tasks of the object batch |
| `Dumper.Mirror.FetchObjectRow` | git_dumper.py:109-112 | the inner loop for a fixed i hands the 256 tasks with first byte i to the worker, j ascending, and the world is the result of downloading them |
| `Dumper.Mirror.FetchObjects` | git_dumper.py:106-112 | the nested loops hand the whole object batch to the worker, in order, and the world is the result of downloading it |
| `Dumper.Mirror.FetchGit` | git_dumper.py:36-114 | returns 0 after handing over the common files, the refs (duplicate included) and the object batch in that order; the world is the result of downloading all of them |
| `Dumper.Mirror.Run` | git_dumper.py:125-136 | a malformed `-H` argument stops before any I/O; an empty output directory stops when it cannot be created; otherwise the whole sweep runs on the URL and directory without trailing `/`, with the built header map |

## Left out

- `requests.get` is an outcome taken from the network stream. TLS (`verify=False`), the meaning of the timeout and redirect following are not modelled. The timeout and the headers are only recorded in the request log. `requests` merges the header dictionary into its own defaults case-insensitively, so on the wire `-H user-agent=x` replaces the default `User-Agent` even though the dictionary keeps both keys; the model states properties of the dictionary only.
- Printing progress lines, `argparse` (its defaults of 3 attempts and 5 seconds, its type conversion, its help text) and the `__main__` guard are user interface only.
- The `jobs` argument is accepted but never used by the code. No concurrency is modelled.
- Directory creation (`os.makedirs` in `fetch_file` and `main`) is a no-op on the map from path to bytes. Two cases are not modelled: the mirror holding a file where a directory is needed, and an object path that is a directory on disk.
- File-system errors are not modelled: a refused permission, a full disk, or the `FileNotFoundError` that `os.makedirs("")` raises in `fetch_file` when a local path has no directory part. That last case happens only when the output directory is made only of `/` and the task is `.gitignore`. In the source each of these errors ends the whole run; in the model the write always succeeds. The one error the model does include is the empty output directory in `main`.
- The process exit code is not modelled. `main` ignores the 0 that `fetch_git` returns and exits normally. A malformed header or an empty directory ends the process with a Python traceback. The model returns an `Exit` value instead.
- The unused `objects_dir` variable in `fetch_git` is not modelled.
- Runner.DownloadWrites and Runner.RunTasksTouchesOnlyTaskPaths are about path strings, not files on disk: the mirror map identifies a file by how its path is spelled, while `..`, `.`, repeated `/` and symbolic links can make different keys name one file (the task `../secret` under `out` writes `./secret`, which these lemmas report as the unchanged key `secret`).
- Rejecting `..` path traversal is not a property of this code, so nothing here claims it.
