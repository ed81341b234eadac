/**
 * The bounded retry loop both export scripts wrap around `export_chart`:
 * `for _ in range(max_retries)`, leaving at the first call that returns and
 * swallowing `ReadTimeout` and `ValueError`.
 */
module Retry {
  import opened Datawrapper

  /** The `max_retries` default of both exporters. */
  const DefaultMaxRetries: int := 5

  /** The outcome of a traversal so far: the export calls made, and false once an exception escaped. */
  datatype Pass = Pass(requests: seq<ExportRequest>, ok: bool)

  /** Running `p` and then, unless it raised, `q`. */
  function Then(p: Pass, q: Pass): Pass {
    if !p.ok then p else Pass(p.requests + q.requests, q.ok)
  }

  lemma ThenAssociative(p: Pass, q: Pass, r: Pass)
    ensures Then(Then(p, q), r) == Then(p, Then(q, r))
  {
    if p.ok && q.ok {
      assert (p.requests + q.requests) + r.requests == p.requests + (q.requests + r.requests);
    }
  }

  /** The outcome of attempt `i`: listed responses first, then every further attempt times out. */
  function OutcomeAt(responses: seq<Outcome>, i: nat): Outcome {
    if i < |responses| then responses[i] else ReadTimeout
  }

  /** The index of the first listed `Success`, or `|responses|` when there is none. */
  function FirstSuccess(responses: seq<Outcome>): (k: nat)
    ensures k <= |responses|
    ensures k < |responses| ==> responses[k] == Success
    ensures forall i :: 0 <= i < k ==> responses[i] != Success
  {
    if responses == [] || responses[0] == Success then 0
    else 1 + FirstSuccess(responses[1..])
  }

  /** Whether some attempt among the first `maxRetries` succeeds. */
  predicate Exported(responses: seq<Outcome>, maxRetries: int) {
    FirstSuccess(responses) < |responses| && FirstSuccess(responses) < maxRetries
  }

  /**
   * The number of attempts made: none when `maxRetries <= 0`, otherwise
   * min(position of the first success + 1, maxRetries).
   */
  function Attempts(responses: seq<Outcome>, maxRetries: int): nat {
    if maxRetries <= 0 then 0
    else if Exported(responses, maxRetries) then FirstSuccess(responses) + 1
    else maxRetries
  }

  /**
   * Sends `req` until one attempt succeeds or `maxRetries` attempts were made;
   * `sent` lists the calls made, in order. Every attempt but the last failed.
   */
  method ExportWithRetries(req: ExportRequest, responses: seq<Outcome>, maxRetries: int)
    returns (sent: seq<ExportRequest>, exported: bool)
    ensures |sent| == Attempts(responses, maxRetries)
    ensures forall i :: 0 <= i < |sent| ==> sent[i] == req
    ensures forall i :: 0 <= i < |sent| - 1 ==> OutcomeAt(responses, i) != Success
    ensures exported <==> Exported(responses, maxRetries)
    ensures exported ==> OutcomeAt(responses, |sent| - 1) == Success
  {
    sent, exported := [], false;
    var attempt := 0;
    while attempt < maxRetries
      invariant 0 <= attempt <= if maxRetries < 0 then 0 else maxRetries
      invariant |sent| == attempt
      invariant forall i :: 0 <= i < |sent| ==> sent[i] == req
      invariant forall i :: 0 <= i < attempt ==> OutcomeAt(responses, i) != Success
      invariant !exported
      decreases maxRetries - attempt
    {
      sent := sent + [req];
      var outcome := OutcomeAt(responses, attempt);
      attempt := attempt + 1;
      if outcome == Success {
        exported := true;
        break;
      }
      // ReadTimeout and ValueError are both swallowed: the next attempt follows
    }
    // The first success is where the loop left, or beyond the attempts made.
    var k := FirstSuccess(responses);
    assert k < attempt - 1 || (!exported && k < attempt) ==> OutcomeAt(responses, k) != Success;
  }
}
