/**
 * RetryClientSession: validation of the retry options, the bounded retry
 * loop with its backoff schedule, and the properties of that loop.
 */
module Retry {
  import opened Wrappers
  import opened Dicts
  import opened Exceptions
  import opened Http

  /** A value in the retry options: `total` and `factor` are integers, `statuses` a list of codes. */
  datatype RetryArg = Number(n: int) | Codes(codes: seq<int>)

  /** The options once validated and defaulted. */
  datatype RetryPolicy = RetryPolicy(total: nat, factor: int, statuses: seq<int>)

  predicate KnownKey(k: string) {
    k == "total" || k == "factor" || k == "statuses"
  }

  /** The option types the constructor documents. */
  predicate WellTyped(options: Dict<string, RetryArg>) {
    forall i :: 0 <= i < |options| ==>
      (options[i].0 == "total" || options[i].0 == "factor" ==> options[i].1.Number?) &&
      (options[i].0 == "statuses" ==> options[i].1.Codes?)
  }

  /** `options.get(key, default)` for an integer option. */
  function NumberOr(options: Dict<string, RetryArg>, key: string, default: int): int {
    var v: Option<RetryArg> := Get(options, key);
    if v.Some? && v.value.Number? then v.value.n else default
  }

  /** `options.get(key, [])` for the list of statuses. */
  function CodesOr(options: Dict<string, RetryArg>, key: string): seq<int> {
    var v: Option<RetryArg> := Get(options, key);
    if v.Some? && v.value.Codes? then v.value.codes else []
  }

  /** The first key, in iteration order, that is not a known option. */
  function FirstUnknown(keys: seq<string>): (r: Option<string>)
    ensures r.None? <==> forall i :: 0 <= i < |keys| ==> KnownKey(keys[i])
    ensures r.Some? ==> exists i :: 0 <= i < |keys| && keys[i] == r.value && !KnownKey(r.value)
                          && forall j :: 0 <= j < i ==> KnownKey(keys[j])
  {
    if |keys| == 0 then None
    else if !KnownKey(keys[0]) then Some(keys[0])
    else
      var r := FirstUnknown(keys[1..]);
      assert forall i :: 1 <= i < |keys| ==> keys[i] == keys[1..][i - 1];
      r
  }

  const UnknownKeyMessage := "Unknown key in retry argument: "
  const InvalidTotalMessage := "Invalid `total` in retry argument must be > 0"

  /**
   * `_validate_retry_argument` followed by the field assignments of
   * `__init__`: unknown keys are rejected first, then a missing or
   * non-positive `total`; `factor` defaults to 1 and `statuses` to [].
   */
  function Validate(options: Dict<string, RetryArg>): (r: Result<RetryPolicy, JenkinsError>)
    requires WellTyped(options)
    ensures r.Ok? <==> (forall i :: 0 <= i < |options| ==> KnownKey(options[i].0)) && NumberOr(options, "total", 0) > 0
    ensures r.Ok? ==> r.value.total > 0 && r.value.total == NumberOr(options, "total", 0)
    ensures r.Ok? ==> r.value.factor == NumberOr(options, "factor", 1) && r.value.statuses == CodesOr(options, "statuses")
    ensures r.Ok? && Get(options, "factor").None? ==> r.value.factor == 1
    ensures r.Ok? && Get(options, "statuses").None? ==> r.value.statuses == []
    ensures r.Err? ==> r.error.kind == Generic && r.error.status.None? && r.error.message.Some?
    ensures r.Err? && FirstUnknown(Keys(options)).Some? ==>
              r.error.message == Some(UnknownKeyMessage + FirstUnknown(Keys(options)).value)
    ensures r.Err? && FirstUnknown(Keys(options)).None? ==> r.error.message == Some(InvalidTotalMessage)
  {
    match FirstUnknown(Keys(options))
    case Some(k) => Err(NewJenkinsError(Some(UnknownKeyMessage + k)))
    case None =>
      var total := NumberOr(options, "total", 0);
      if total <= 0 then Err(NewJenkinsError(Some(InvalidTotalMessage)))
      else Ok(RetryPolicy(total, NumberOr(options, "factor", 1), CodesOr(options, "statuses")))
  }

  function Pow2(i: nat): (p: nat)
    ensures p >= 1
  {
    if i == 0 then 1 else 2 * Pow2(i - 1)
  }

  /**
   * Twice the seconds slept after 0-based attempt `i`. The source sleeps
   * `factor * 2 ** (i - 1)` seconds, so the first sleep is half the factor;
   * doubling keeps the schedule in integers.
   */
  function Backoff(factor: int, i: nat): int {
    factor * Pow2(i)
  }

  /** An exception the loop catches: a transport failure or a timeout. */
  predicate Caught(a: Result<Response, Exception>) {
    a.Err? && (a.error.ClientError? || a.error.TimeoutError?)
  }

  /** An attempt after which the loop tries again unless it was the last one. */
  predicate Retryable(p: RetryPolicy, a: Result<Response, Exception>) {
    Caught(a) || (a.Ok? && a.value.status in p.statuses)
  }

  lemma SnocAssoc<T>(a: seq<T>, b: seq<T>, x: T)
    ensures (a + b) + [x] == a + (b + [x])
  {
  }

  /** What the loop returns or raises, how many attempts it made, and its sleeps (doubled). */
  datatype RetryRun = RetryRun(result: Result<Response, Exception>, attempts: nat, sleeps: seq<int>)

  /** The loop from attempt `i` on, where `answers[k]` is what attempt `k` gets from the session. */
  function RunFrom(p: RetryPolicy, answers: seq<Result<Response, Exception>>, i: nat): RetryRun
    requires i < |answers| == p.total
    decreases |answers| - i
  {
    var a := answers[i];
    if !Retryable(p, a) then RetryRun(a, i + 1, [])
    else if i + 1 == p.total then
      if a.Ok? then RetryRun(a, i + 1, [Backoff(p.factor, i)])
      else RetryRun(Err(Jenkins(NewJenkinsError())), i + 1, [])
    else
      var rest := RunFrom(p, answers, i + 1);
      rest.(sleeps := [Backoff(p.factor, i)] + rest.sleeps)
  }

  function Run(p: RetryPolicy, answers: seq<Result<Response, Exception>>): RetryRun
    requires 0 < |answers| == p.total
  {
    RunFrom(p, answers, 0)
  }

  /** The loop has slept `waited` and has still to make attempt `i` on, ending as `run`. */
  predicate Pending(p: RetryPolicy, answers: seq<Result<Response, Exception>>, i: nat, waited: seq<int>, run: RetryRun)
    requires i < |answers| == p.total
  {
    var rest := RunFrom(p, answers, i);
    run.result == rest.result && run.attempts == rest.attempts && run.sleeps == waited + rest.sleeps
  }

  /** One retried attempt: the loop's outcome from attempt `i` is its outcome from `i + 1`, after one more sleep. */
  lemma RunAdvances(p: RetryPolicy, answers: seq<Result<Response, Exception>>, i: nat, waited: seq<int>, run: RetryRun)
    requires i < |answers| == p.total
    requires Retryable(p, answers[i]) && (i + 1 == p.total ==> answers[i].Ok?)
    requires Pending(p, answers, i, waited, run)
    ensures i + 1 < p.total ==> Pending(p, answers, i + 1, waited + [Backoff(p.factor, i)], run)
    ensures i + 1 == p.total ==> run == RetryRun(answers[i], p.total, waited + [Backoff(p.factor, i)])
  {
    if i + 1 < p.total {
      var rest := RunFrom(p, answers, i + 1);
      assert waited + ([Backoff(p.factor, i)] + rest.sleeps) == (waited + [Backoff(p.factor, i)]) + rest.sleeps;
    }
  }

  /** An attempt that is not retried, or a transport failure on the last one, ends the loop. */
  lemma RunSettles(p: RetryPolicy, answers: seq<Result<Response, Exception>>, i: nat, waited: seq<int>, run: RetryRun)
    requires i < |answers| == p.total
    requires Pending(p, answers, i, waited, run)
    requires !Retryable(p, answers[i]) || (i + 1 == p.total && answers[i].Err?)
    ensures run.result == if Retryable(p, answers[i]) then Err(Jenkins(NewJenkinsError())) else answers[i]
    ensures run.attempts == i + 1 && run.sleeps == waited
  {
  }

  /** What each of `total` attempts of `req` gets from a session, the first being the server's `start`-th request. */
  function Attempts(closed: bool, reply: (nat, Request) -> Answer, start: nat, req: Request, total: nat): (s: seq<Result<Response, Exception>>)
    ensures |s| == total
    ensures forall k :: 0 <= k < total ==> s[k] == SessionOutcome(closed, reply, start + k, req)
  {
    seq(total, k requires 0 <= k < total => SessionOutcome(closed, reply, start + k, req))
  }

  /**
   * The loop is bounded by `total`, every attempt before the last was
   * retried, the sleeps follow the doubling schedule, and there is a sleep
   * after the last attempt exactly when it returned a retryable status.
   */
  lemma {:induction false} RunShape(p: RetryPolicy, answers: seq<Result<Response, Exception>>, i: nat)
    requires i < |answers| == p.total
    ensures var run := RunFrom(p, answers, i);
      && i < run.attempts <= p.total
      && (forall j :: i <= j < run.attempts - 1 ==> Retryable(p, answers[j]))
      && (run.attempts < p.total ==> !Retryable(p, answers[run.attempts - 1]))
      && (|run.sleeps| == run.attempts - i || |run.sleeps| == run.attempts - i - 1)
      && (|run.sleeps| == run.attempts - i <==> run.result.Ok? && run.result.value.status in p.statuses)
      && forall j :: 0 <= j < |run.sleeps| ==> run.sleeps[j] == Backoff(p.factor, i + j)
    decreases |answers| - i
  {
    var a := answers[i];
    if Retryable(p, a) && i + 1 < p.total {
      RunShape(p, answers, i + 1);
    }
  }

  /** The first attempt that is not retried decides the outcome: it is returned (or re-raised) as it is. */
  lemma {:induction false} RunStopsAtFirstSettled(p: RetryPolicy, answers: seq<Result<Response, Exception>>, i: nat, k: nat)
    requires i <= k < |answers| == p.total
    requires !Retryable(p, answers[k])
    requires forall j :: i <= j < k ==> Retryable(p, answers[j])
    ensures RunFrom(p, answers, i).result == answers[k]
    ensures RunFrom(p, answers, i).attempts == k + 1
    ensures |RunFrom(p, answers, i).sleeps| == k - i
    decreases k - i
  {
    if i < k {
      RunStopsAtFirstSettled(p, answers, i + 1, k);
    }
  }

  /**
   * When every attempt is retried, the loop makes exactly `total` attempts and
   * returns the last response unchanged, or raises a status-less
   * JenkinsError when the last attempt failed in transport.
   */
  lemma {:induction false} RunExhausts(p: RetryPolicy, answers: seq<Result<Response, Exception>>, i: nat)
    requires i < |answers| == p.total
    requires forall j :: i <= j < |answers| ==> Retryable(p, answers[j])
    ensures RunFrom(p, answers, i).attempts == p.total
    ensures answers[p.total - 1].Ok? ==> RunFrom(p, answers, i).result == answers[p.total - 1]
    ensures answers[p.total - 1].Err? ==> RunFrom(p, answers, i).result == Err(Jenkins(NewJenkinsError()))
    ensures |RunFrom(p, answers, i).sleeps| == if answers[p.total - 1].Ok? then p.total - i else p.total - i - 1
    decreases |answers| - i
  {
    if i + 1 < p.total {
      RunExhausts(p, answers, i + 1);
    }
  }

  /** RetryClientSession: a ClientSession whose requests go through the retry loop. */
  class RetryClientSession {
    const policy: RetryPolicy
    const session: ClientSession
    /** twice the duration of every `asyncio.sleep` so far, in order */
    ghost var sleeps: seq<int>

    /** `__init__`, whose validation the caller has passed (see Client.Jenkins.GetSession). */
    constructor (options: Dict<string, RetryArg>, server: Server)
      requires WellTyped(options) && Validate(options).Ok?
      ensures policy == Validate(options).value && policy.total > 0
      ensures fresh(session) && session.server == server && !session.closed
      ensures sleeps == []
    {
      policy := Validate(options).value;
      session := new ClientSession(server);
      sleeps := [];
    }

    method Request(req: Request) returns (r: Result<Response, Exception>)
      requires policy.total > 0
      modifies this`sleeps, session.server
      ensures var run := Run(policy, Attempts(session.closed, session.server.reply, |old(session.server.sent)|, req, policy.total));
        && r == run.result
        && sleeps == old(sleeps) + run.sleeps
        && session.server.sent == old(session.server.sent) + (if session.closed then [] else Repeat(req, run.attempts))
    {
      ghost var answers := Attempts(session.closed, session.server.reply, |session.server.sent|, req, policy.total);
      ghost var run := Run(policy, answers);
      ghost var s0 := sleeps;
      ghost var sent0 := session.server.sent;
      ghost var waited: seq<int> := [];
      var i := 0;
      var response: Option<Response> := None;
      while i < policy.total
        invariant 0 <= i <= policy.total
        invariant session.server.sent == sent0 + (if session.closed then [] else Repeat(req, i))
        invariant sleeps == s0 + waited
        invariant i < policy.total ==> Pending(policy, answers, i, waited, run)
        invariant i == policy.total ==>
          response.Some? && run == RetryRun(Ok(response.value), policy.total, waited)
      {
        ghost var sentBefore := session.server.sent;
        var a := session.Request(req);
        assert a == answers[i];
        if !session.closed {
          SnocAssoc(sent0, Repeat(req, i), req);
        }
        if a.Err? {
          if !(a.error.ClientError? || a.error.TimeoutError?) {
            RunSettles(policy, answers, i, waited, run);
            r := a;
            return;
          }
          if i + 1 == policy.total {
            RunSettles(policy, answers, i, waited, run);
            r := Err(Jenkins(NewJenkinsError()));
            return;
          }
        } else {
          response := Some(a.value);
          if a.value.status !in policy.statuses {
            RunSettles(policy, answers, i, waited, run);
            break;
          }
        }
        SnocAssoc(s0, waited, Backoff(policy.factor, i));
        RunAdvances(policy, answers, i, waited, run);
        sleeps := sleeps + [Backoff(policy.factor, i)];
        waited := waited + [Backoff(policy.factor, i)];
        i := i + 1;
      }
      r := Ok(response.value);
    }

    method Close()
      modifies session
      ensures session.closed
    {
      session.Close();
    }
  }
}
