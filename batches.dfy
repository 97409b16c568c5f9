/**
 * The three batches `fetch_git` issues, in order: the fixed metadata and
 * hook files, the fixed ref and reflog locations, and one task per byte
 * pair of the loose-object directory layout.
 */
module Batches {
  import opened Common
  import opened Hex

  const CommonFiles: seq<string> := [
    ".gitignore",
    ".git/COMMIT_EDITMSG",
    ".git/description",
    ".git/hooks/applypatch-msg.sample",
    ".git/hooks/commit-msg.sample",
    ".git/hooks/post-commit.sample",
    ".git/hooks/post-receive.sample",
    ".git/hooks/post-update.sample",
    ".git/hooks/pre-applypatch.sample",
    ".git/hooks/pre-commit.sample",
    ".git/hooks/pre-push.sample",
    ".git/hooks/pre-rebase.sample",
    ".git/hooks/pre-receive.sample",
    ".git/hooks/prepare-commit-msg.sample",
    ".git/hooks/update.sample",
    ".git/index",
    ".git/info/exclude",
    ".git/objects/info/packs"
  ]

  const PackedRefs: string := ".git/packed-refs"

  const Refs: seq<string> := [
    ".git/HEAD",
    ".git/config",
    PackedRefs,
    ".git/info/refs",
    ".git/logs/HEAD",
    ".git/FETCH_HEAD",
    ".git/logs/refs/heads/main",
    ".git/logs/refs/heads/master",
    ".git/logs/refs/heads/staging",
    ".git/logs/refs/heads/production",
    ".git/logs/refs/heads/development",
    ".git/logs/refs/remotes/origin/HEAD",
    ".git/logs/refs/remotes/origin/main",
    ".git/logs/refs/remotes/origin/master",
    ".git/logs/refs/remotes/origin/staging",
    ".git/logs/refs/remotes/origin/production",
    ".git/logs/refs/remotes/origin/development",
    ".git/logs/refs/stash",
    PackedRefs,
    ".git/refs/heads/main",
    ".git/refs/heads/master",
    ".git/refs/heads/staging",
    ".git/refs/heads/production",
    ".git/refs/heads/development",
    ".git/refs/remotes/origin/HEAD",
    ".git/refs/remotes/origin/main",
    ".git/refs/remotes/origin/master",
    ".git/refs/remotes/origin/staging",
    ".git/refs/remotes/origin/production",
    ".git/refs/remotes/origin/development",
    ".git/refs/stash",
    ".git/refs/wip/wtree/refs/heads/main",
    ".git/refs/wip/wtree/refs/heads/master",
    ".git/refs/wip/wtree/refs/heads/staging",
    ".git/refs/wip/wtree/refs/heads/production",
    ".git/refs/wip/wtree/refs/heads/development",
    ".git/refs/wip/index/refs/heads/main",
    ".git/refs/wip/index/refs/heads/master",
    ".git/refs/wip/index/refs/heads/staging",
    ".git/refs/wip/index/refs/heads/production",
    ".git/refs/wip/index/refs/heads/development"
  ]

  const ObjectsPrefix: string := ".git/objects/"

  /** The byte-pair subdirectory `f"{i:02x}/{j:02x}"`. */
  function ObjectSubdir(i: nat, j: nat): string
    requires i < 256 && j < 256
  {
    Hex2(i) + "/" + Hex2(j)
  }

  /** The task `f".git/objects/{subdir}"` for the pair (i, j). */
  function ObjectTask(i: nat, j: nat): string
    requires i < 256 && j < 256
  {
    ObjectsPrefix + ObjectSubdir(i, j)
  }

  /** Recovers the pair from a task of the object layout; None for any other string. */
  function ParseObjectTask(t: string): (r: Option<(nat, nat)>)
    ensures r.Some? ==> r.value.0 < 256 && r.value.1 < 256
  {
    if |t| == 18 && t[..13] == ObjectsPrefix && t[15] == '/'
       && ParseHex2(t[13..15]).Some? && ParseHex2(t[16..]).Some?
    then Some((ParseHex2(t[13..15]).value, ParseHex2(t[16..]).value))
    else None
  }

  /**
   * Each object task has the shape `.git/objects/xx/yy`, 18 characters,
   * and decodes back to its pair.
   */
  lemma {:induction false} ObjectTaskRoundTrip(i: nat, j: nat)
    requires i < 256 && j < 256
    ensures |ObjectTask(i, j)| == 18
    ensures ObjectTask(i, j)[..13] == ObjectsPrefix && ObjectTask(i, j)[15] == '/'
    ensures ParseObjectTask(ObjectTask(i, j)) == Some((i, j))
  {
    var t := ObjectTask(i, j);
    assert t[..13] == ObjectsPrefix;
    assert t[13..15] == Hex2(i);
    assert t[16..] == Hex2(j);
    Hex2RoundTrip(i);
    Hex2RoundTrip(j);
  }

  /** Every string the decoder accepts is the task of the pair it decodes to. */
  lemma {:induction false} ParseObjectTaskCanonical(t: string)
    requires ParseObjectTask(t).Some?
    ensures ObjectTask(ParseObjectTask(t).value.0, ParseObjectTask(t).value.1) == t
  {
    ParseHex2Canonical(t[13..15]);
    ParseHex2Canonical(t[16..]);
    assert t == t[..13] + t[13..15] + "/" + t[16..];
  }

  /** Distinct pairs give distinct tasks. */
  lemma {:induction false} ObjectTaskInjective(i: nat, j: nat, i': nat, j': nat)
    requires i < 256 && j < 256 && i' < 256 && j' < 256
    requires ObjectTask(i, j) == ObjectTask(i', j')
    ensures i == i' && j == j'
  {
    ObjectTaskRoundTrip(i, j);
    ObjectTaskRoundTrip(i', j');
  }

  /** The object batch, in the order of the nested loops: i outer, j inner. */
  function ObjectTasks(): (r: seq<string>)
    ensures |r| == 65536
  {
    seq(65536, k requires 0 <= k < 65536 => ObjectTask(k / 256, k % 256))
  }

  /**
   * The pair (i, j) stands at position 256 * i + j of the object batch and
   * nowhere else: every pair is issued exactly once, in lexicographic order.
   */
  lemma {:induction false} ObjectTasksExactlyOnce(i: nat, j: nat, k: nat)
    requires i < 256 && j < 256 && k < 65536
    ensures ObjectTasks()[k] == ObjectTask(i, j) <==> k == 256 * i + j
  {
    assert ObjectTasks()[k] == ObjectTask(k / 256, k % 256);
    if k == 256 * i + j {
      assert k / 256 == i && k % 256 == j;
    } else if ObjectTasks()[k] == ObjectTask(i, j) {
      ObjectTaskInjective(k / 256, k % 256, i, j);
    }
  }

  /** No task occurs twice in the object batch. */
  lemma {:induction false} ObjectTasksDistinct(k: nat, k': nat)
    requires k < 65536 && k' < 65536 && k != k'
    ensures ObjectTasks()[k] != ObjectTasks()[k']
  {
    ObjectTasksExactlyOnce(k / 256, k % 256, k');
  }

  /** The tasks of one pass of the outer loop: first byte i, second byte ascending. */
  function Row(i: nat): (r: seq<string>)
    requires i < 256
    ensures |r| == 256
  {
    seq(256, j requires 0 <= j < 256 => ObjectTask(i, j))
  }

  /** The tasks of the first n passes of the outer loop. */
  function Rows(n: nat): (r: seq<string>)
    requires n <= 256
  {
    if n == 0 then [] else Rows(n - 1) + Row(n - 1)
  }

  /** The first n passes of the outer loop issue the first 256 * n tasks of the object batch. */
  lemma {:induction false} RowsArePrefix(n: nat)
    requires n <= 256
    ensures Rows(n) == ObjectTasks()[..256 * n]
  {
    if n > 0 {
      RowsArePrefix(n - 1);
      var m := n - 1;
      forall k | 256 * m <= k < 256 * n
        ensures ObjectTasks()[k] == Row(m)[k - 256 * m]
      {
        ObjectTasksExactlyOnce(m, k - 256 * m, k);
      }
    }
  }

  /** All 256 passes of the outer loop issue the whole object batch. */
  lemma RowsComplete()
    ensures Rows(256) == ObjectTasks()
  {
    RowsArePrefix(256);
    assert ObjectTasks()[..256 * 256] == ObjectTasks();
  }

  /** Everything `fetch_git` hands to the task runner, in order. */
  function AllTasks(): (r: seq<string>)
    ensures |r| == 18 + 41 + 65536
  {
    CommonFiles + Refs + ObjectTasks()
  }

  /** `.git/packed-refs` is listed twice in the refs batch, so it is issued twice. */
  lemma PackedRefsIssuedTwice()
    ensures AllTasks()[18 + 2] == PackedRefs && AllTasks()[18 + 18] == PackedRefs
  {
  }
}
