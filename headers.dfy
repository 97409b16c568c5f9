/**
 * The HTTP header map built at start-up: the default `User-Agent` entry,
 * then each `-H key=value` argument split at its first '=' with both
 * halves stripped of whitespace, inserted in order so that later keys
 * overwrite earlier ones (the default included).
 */
module Headers {
  import opened Common

  const UserAgent: string := "User-Agent"
  const DefaultAgent: string := "git-dumper/1.0"

  /** Python's `str.isspace()` for one character, by code point. */
  predicate IsSpace(c: char) {
    var n := c as int;
    (0x09 <= n <= 0x0d) || (0x1c <= n <= 0x20) || n == 0x85 || n == 0xa0 || n == 0x1680
    || (0x2000 <= n <= 0x200a) || n == 0x2028 || n == 0x2029 || n == 0x202f || n == 0x205f
    || n == 0x3000
  }

  function TrimStart(s: string): (r: string)
    ensures |r| <= |s| && r == s[|s| - |r|..]
    ensures r == [] || !IsSpace(r[0])
    ensures forall k :: 0 <= k < |s| - |r| ==> IsSpace(s[k])
    decreases |s|
  {
    if |s| > 0 && IsSpace(s[0]) then TrimStart(s[1..]) else s
  }

  function TrimEnd(s: string): (r: string)
    ensures |r| <= |s| && r == s[..|r|]
    ensures r == [] || !IsSpace(r[|r| - 1])
    ensures forall k :: |r| <= k < |s| ==> IsSpace(s[k])
    decreases |s|
  {
    if |s| > 0 && IsSpace(s[|s| - 1]) then TrimEnd(s[..|s| - 1]) else s
  }

  /** How many whitespace characters `strip` removes from the front of s. */
  function LeadingSpace(s: string): (n: nat)
    ensures n <= |s|
  {
    |s| - |TrimStart(s)|
  }

  /** `s.strip()`: s without leading and trailing whitespace. */
  function Strip(s: string): (r: string)
    ensures |r| <= |s|
    ensures r == [] || (!IsSpace(r[0]) && !IsSpace(r[|r| - 1]))
  {
    TrimEnd(TrimStart(s))
  }

  /**
   * What `strip` keeps: the infix of s that starts after the leading
   * whitespace, neither starting nor ending with whitespace, with only
   * whitespace around it.
   */
  lemma StripCharacterized(s: string)
    ensures var r := Strip(s);
      && LeadingSpace(s) + |r| <= |s|
      && r == s[LeadingSpace(s)..LeadingSpace(s) + |r|]
      && (forall k :: 0 <= k < LeadingSpace(s) ==> IsSpace(s[k]))
      && (forall k :: LeadingSpace(s) + |r| <= k < |s| ==> IsSpace(s[k]))
      && (r == [] || (!IsSpace(r[0]) && !IsSpace(r[|r| - 1])))
  {
  }

  /**
   * `h.split("=", 1)` unpacked into two names: None when h has no '='
   * (the unpacking raises), otherwise the text before the first '=' and
   * everything after it.
   */
  function SplitAtEquals(h: string): (r: Option<(string, string)>)
    ensures r.None? <==> '=' !in h
    ensures r.Some? ==> h == r.value.0 + "=" + r.value.1 && '=' !in r.value.0
    decreases |h|
  {
    if h == [] then None
    else if h[0] == '=' then Some(([], h[1..]))
    else match SplitAtEquals(h[1..])
      case None => None
      case Some((k, v)) =>
        assert h == [h[0]] + h[1..];
        Some(([h[0]] + k, v))
  }

  /** One `-H` argument as a (key, value) pair, both stripped; None when it has no '='. */
  function ParseHeader(h: string): (r: Option<(string, string)>)
    ensures r.Some? <==> '=' in h
  {
    match SplitAtEquals(h)
    case None => None
    case Some((k, v)) => Some((Strip(k), Strip(v)))
  }

  /** Every argument has the '=' that the unpacking needs. */
  predicate WellFormed(args: seq<string>) {
    forall j :: 0 <= j < |args| ==> '=' in args[j]
  }

  /** The parsed (key, value) pairs of well-formed arguments, in order. */
  function Pairs(args: seq<string>): (ps: seq<(string, string)>)
    requires WellFormed(args)
    ensures |ps| == |args|
    ensures forall j :: 0 <= j < |args| ==> Some(ps[j]) == ParseHeader(args[j])
  {
    seq(|args|, j requires 0 <= j < |args| => ParseHeader(args[j]).value)
  }

  /** The default map with the pairs inserted in order; a later key overwrites. */
  function Insert(ps: seq<(string, string)>): (m: map<string, string>)
    ensures UserAgent in m
    ensures |m.Keys| <= |ps| + 1
    decreases |ps|
  {
    if ps == [] then map[UserAgent := DefaultAgent]
    else Insert(ps[..|ps| - 1])[ps[|ps| - 1].0 := ps[|ps| - 1].1]
  }

  /** The header map after inserting the arguments in order, or None if one of them is malformed. */
  function HeaderMap(args: seq<string>): (r: Option<map<string, string>>)
    ensures r.Some? ==> UserAgent in r.value && |r.value.Keys| <= |args| + 1
    decreases |args|
  {
    if args == [] then Some(map[UserAgent := DefaultAgent])
    else
      var before := HeaderMap(args[..|args| - 1]);
      var last := ParseHeader(args[|args| - 1]);
      if before.Some? && last.Some? then Some(before.value[last.value.0 := last.value.1])
      else None
  }

  /** The loop in `main` that fills the headers dict; None where the unpacking raises. */
  method BuildHeaders(args: seq<string>) returns (r: Option<map<string, string>>)
    ensures r == HeaderMap(args)
  {
    var headers := map[UserAgent := DefaultAgent];
    var i := 0;
    while i < |args|
      invariant 0 <= i <= |args|
      invariant HeaderMap(args[..i]) == Some(headers)
    {
      HeaderMapStep(args, i);
      var split := SplitAtEquals(args[i]);
      if split.None? {
        HeaderMapStaysFailed(args, i + 1);
        return None;
      }
      var (key, value) := split.value;
      headers := headers[Strip(key) := Strip(value)];
      i := i + 1;
    }
    assert args[..i] == args;
    r := Some(headers);
  }

  /** Extending the arguments by one inserts its pair, or fails when it has no '='. */
  lemma HeaderMapStep(args: seq<string>, n: nat)
    requires n < |args|
    ensures ParseHeader(args[n]).None? ==> HeaderMap(args[..n + 1]).None?
    ensures ParseHeader(args[n]).Some? && HeaderMap(args[..n]).Some? ==>
      var (k, v) := ParseHeader(args[n]).value;
      HeaderMap(args[..n + 1]) == Some(HeaderMap(args[..n]).value[k := v])
  {
    var pre := args[..n + 1];
    assert pre[..|pre| - 1] == args[..n] && pre[|pre| - 1] == args[n];
  }

  /** Once a prefix fails to parse, the whole argument list does. */
  lemma {:induction false} HeaderMapStaysFailed(args: seq<string>, n: nat)
    requires n <= |args| && HeaderMap(args[..n]).None?
    ensures HeaderMap(args).None?
    decreases |args| - n
  {
    if n < |args| {
      assert args[..n + 1][..n] == args[..n];
      HeaderMapStaysFailed(args, n + 1);
    } else {
      assert args[..n] == args;
    }
  }

  /** The map exists exactly when every argument contains '='. */
  lemma {:induction false} HeaderMapDefinedIff(args: seq<string>)
    ensures HeaderMap(args).Some? <==> WellFormed(args)
    decreases |args|
  {
    if args != [] {
      var init, last := args[..|args| - 1], args[|args| - 1];
      HeaderMapDefinedIff(init);
      assert HeaderMap(args).Some? <==> HeaderMap(init).Some? && ParseHeader(last).Some?;
      WellFormedSnoc(args);
    }
  }

  lemma WellFormedSnoc(args: seq<string>)
    requires args != []
    ensures WellFormed(args) <==> WellFormed(args[..|args| - 1]) && '=' in args[|args| - 1]
  {
    var init := args[..|args| - 1];
    assert forall j :: 0 <= j < |init| ==> init[j] == args[j];
  }

  /** For well-formed arguments the map is the in-order insertion of their pairs. */
  lemma {:induction false} HeaderMapIsInsert(args: seq<string>)
    requires WellFormed(args)
    ensures HeaderMap(args) == Some(Insert(Pairs(args)))
    decreases |args|
  {
    if args != [] {
      var init := args[..|args| - 1];
      assert WellFormed(init) by {
        assert forall j :: 0 <= j < |init| ==> init[j] == args[j];
      }
      HeaderMapIsInsert(init);
      assert Pairs(args)[..|args| - 1] == Pairs(init);
    }
  }

  /** Its keys are the default `User-Agent` and the key of every pair. */
  lemma {:induction false} InsertKeys(ps: seq<(string, string)>, key: string)
    ensures key in Insert(ps) <==> key == UserAgent || exists j :: 0 <= j < |ps| && ps[j].0 == key
    decreases |ps|
  {
    if ps != [] {
      var init := ps[..|ps| - 1];
      InsertKeys(init, key);
      if exists j :: 0 <= j < |ps| && ps[j].0 == key {
        var j :| 0 <= j < |ps| && ps[j].0 == key;
        if j < |init| {
          assert init[j].0 == key;
        }
      }
    }
  }

  /** A later pair overrides: pair i's value is stored when no later pair has its key. */
  lemma {:induction false} InsertLaterWins(ps: seq<(string, string)>, i: nat)
    requires i < |ps|
    requires forall j :: i < j < |ps| ==> ps[j].0 != ps[i].0
    ensures ps[i].0 in Insert(ps) && Insert(ps)[ps[i].0] == ps[i].1
    decreases |ps|
  {
    if i < |ps| - 1 {
      InsertLaterWins(ps[..|ps| - 1], i);
    }
  }

  /** The default `User-Agent` survives unless some pair sets that key. */
  lemma {:induction false} InsertKeepsDefault(ps: seq<(string, string)>)
    requires forall j :: 0 <= j < |ps| ==> ps[j].0 != UserAgent
    ensures UserAgent in Insert(ps) && Insert(ps)[UserAgent] == DefaultAgent
    decreases |ps|
  {
    if ps != [] {
      InsertKeepsDefault(ps[..|ps| - 1]);
    }
  }
}
