/**
 * One retrieval with bounded retries: the network as a stream of
 * per-attempt outcomes, the classification of an outcome, and what a
 * whole retrieval amounts to (how many attempts, whether it succeeded,
 * which body is written).
 */
module Fetching {
  import opened Common

  /** What one `requests.get` yields: a response, or a `RequestException`. */
  datatype Outcome = Response(status: int, body: Bytes) | Raised

  /** 200 means present, 404 absent, anything else (and an exception) try again. */
  datatype Verdict = Present(body: Bytes) | Absent | Transient

  function Classify(o: Outcome): (v: Verdict)
    ensures v.Present? <==> o.Response? && o.status == 200
    ensures v.Present? ==> v.body == o.body
    ensures v.Absent? <==> o.Response? && o.status == 404
  {
    match o
    case Response(status, body) =>
      if status == 200 then Present(body) else if status == 404 then Absent else Transient
    case Raised => Transient
  }

  /** The outcome of the next request; once the stream is exhausted every request raises. */
  function Next(network: seq<Outcome>): Outcome {
    if network == [] then Raised else network[0]
  }

  /** The stream after one request. */
  function Rest(network: seq<Outcome>): seq<Outcome> {
    if network == [] then [] else network[1..]
  }

  /** The outcome of request number k (from 0). */
  function At(network: seq<Outcome>, k: nat): Outcome {
    if k < |network| then network[k] else Raised
  }

  /** The stream after n requests. */
  function Drop(network: seq<Outcome>, n: nat): (r: seq<Outcome>)
    ensures |r| == if n <= |network| then |network| - n else 0
  {
    if n == 0 then network else Drop(Rest(network), n - 1)
  }

  /** One more request after n is Rest of the stream after n. */
  lemma {:induction false} DropNext(network: seq<Outcome>, n: nat)
    ensures Drop(network, n + 1) == Rest(Drop(network, n))
    ensures Next(Drop(network, n)) == At(network, n)
  {
    if n > 0 {
      DropNext(Rest(network), n - 1);
    }
  }

  function Max0(n: int): nat {
    if n < 0 then 0 else n
  }

  /** How a retrieval ended: its result, the attempts it made and the body it wrote, if any. */
  datatype FetchRun = FetchRun(ok: bool, attempts: nat, written: Option<Bytes>)

  /** `fetch_file` with at most `retry` attempts against the stream. */
  function Fetch(network: seq<Outcome>, retry: int): (r: FetchRun)
    ensures r.attempts <= Max0(retry)
    decreases retry
  {
    if retry <= 0 then FetchRun(false, 0, None)
    else match Classify(Next(network))
      case Present(body) => FetchRun(true, 1, Some(body))
      case Absent => FetchRun(false, 1, None)
      case Transient =>
        var r := Fetch(Rest(network), retry - 1);
        FetchRun(r.ok, r.attempts + 1, r.written)
  }

  /**
   * What a retrieval amounts to: at most `retry` attempts (at least one
   * when `retry` is positive); every attempt before the last was a
   * transient one; it stops before `retry` attempts only at a 200 or a
   * 404; it succeeds exactly when its last attempt was a 200; and it
   * writes that response's body exactly when it succeeds.
   */
  lemma {:induction false} FetchCharacterized(network: seq<Outcome>, retry: int)
    ensures var r := Fetch(network, retry);
      && r.attempts <= Max0(retry)
      && (retry > 0 ==> r.attempts > 0)
      && (forall k :: 0 <= k < r.attempts - 1 ==> Classify(At(network, k)).Transient?)
      && (0 < r.attempts < retry ==> !Classify(At(network, r.attempts - 1)).Transient?)
      && (r.ok <==> r.attempts > 0 && Classify(At(network, r.attempts - 1)).Present?)
      && (r.ok ==> r.written == Some(At(network, r.attempts - 1).body))
      && (!r.ok ==> r.written == None)
    decreases retry
  {
    if retry > 0 && Classify(Next(network)).Transient? {
      FetchCharacterized(Rest(network), retry - 1);
      assert At(network, 0) == Next(network);
      assert forall k: nat :: 0 < k ==> At(network, k) == At(Rest(network), k - 1);
    }
  }

  /** A 404 on the first attempt ends the retrieval there, whatever `retry` is. */
  lemma NotFoundUsesOneAttempt(network: seq<Outcome>, retry: int)
    requires retry > 0 && Classify(Next(network)) == Absent
    ensures Fetch(network, retry) == FetchRun(false, 1, None)
  {
  }

  /** With no 200 and no 404 in reach, all `retry` attempts are spent and nothing is written. */
  lemma {:induction false} AllTransientExhausts(network: seq<Outcome>, retry: int)
    requires forall k :: 0 <= k < retry ==> Classify(At(network, k)).Transient?
    ensures Fetch(network, retry) == FetchRun(false, Max0(retry), None)
  {
    var r := Fetch(network, retry);
    FetchCharacterized(network, retry);
    if retry > 0 {
      assert Classify(At(network, r.attempts - 1)).Transient?;
    }
  }
}
