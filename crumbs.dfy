/**
 * The crumb state machine of `Jenkins._get_crumb` and `Jenkins._request`,
 * as a function of what the executor answers to each of its calls.
 */
module Crumbs {
  import opened Wrappers
  import opened Json
  import opened Exceptions
  import opened Http

  /** `self.crumb`: None (not fetched yet), False (the server has no crumb issuer) or a one-entry header dict. */
  datatype Crumb = Unset | Unsupported | Concrete(field: string, token: string)

  const CrumbPath := "/crumbIssuer/api/json"

  /**
   * `_get_crumb` given the executor's answer to the probe: Ok carries the
   * value `_request` assigns to `self.crumb`; an error propagates.
   */
  function ProbeOutcome(probe: Result<Response, Exception>): (r: Result<Crumb, Exception>)
    ensures r.Ok? ==> !r.value.Unset?
    ensures probe.Err? ==> (r == Ok(Unsupported) <==> IsNotFound(probe.error))
    ensures probe.Err? && !IsNotFound(probe.error) ==> r == Err(probe.error)
    ensures probe.Ok? ==> r.Err? || r.value.Concrete?
    ensures probe.Ok? && r.Ok? ==>
              && probe.value.json.Some?
              && Field(probe.value.json.value, "crumbRequestField") == Some(Str(r.value.field))
              && Field(probe.value.json.value, "crumb") == Some(Str(r.value.token))
  {
    match probe
    case Err(e) => if IsNotFound(e) then Ok(Unsupported) else Err(e)
    case Ok(resp) =>
      if resp.json.None? then Err(Malformed)
      else
        var f := Field(resp.json.value, "crumbRequestField");
        var t := Field(resp.json.value, "crumb");
        if f.Some? && f.value.Str? && t.Some? && t.value.Str? then Ok(Concrete(f.value.s, t.value.s))
        else Err(Malformed)
  }

  /** One executor call made by `_request`: the crumb probe or the caller's own request, with the crumb attached to it. */
  datatype Step = Probe(attached: Crumb) | Target(attached: Crumb)

  /** The executor calls of one logical request, the crumb afterwards, and what the request returns or raises. */
  datatype Trace = Trace(steps: seq<Step>, crumb: Crumb, result: Result<Response, Exception>)

  /** Probe from crumb `c`, then issue the request with whatever the probe gave. */
  function Refresh(c: Crumb, answers: seq<Result<Response, Exception>>): Option<Trace>
  {
    if |answers| == 0 then None
    else
      match ProbeOutcome(answers[0])
      case Err(e) => if |answers| == 1 then Some(Trace([Probe(c)], c, Err(e))) else None
      case Ok(c2) => if |answers| == 2 then Some(Trace([Probe(c), Target(c2)], c2, answers[1])) else None
  }

  /**
   * `_request` from crumb `c`, where `answers[k]` is what the executor gives
   * the k-th call; None unless `answers` holds exactly the calls made.
   */
  function Orchestrate(c: Crumb, answers: seq<Result<Response, Exception>>): Option<Trace>
  {
    match c
    case Unsupported =>
      if |answers| == 1 then Some(Trace([Target(c)], c, answers[0])) else None
    case Unset =>
      Refresh(c, answers)
    case Concrete(_, _) =>
      if |answers| == 0 then None
      else if answers[0].Err? && IsForbidden(answers[0].error) then
        match Refresh(c, answers[1..])
        case None => None
        case Some(run) => Some(run.(steps := [Target(c)] + run.steps))
      else if |answers| == 1 then Some(Trace([Target(c)], c, answers[0]))
      else None
  }

  function CountProbes(steps: seq<Step>): nat {
    if |steps| == 0 then 0 else (if steps[0].Probe? then 1 else 0) + CountProbes(steps[1..])
  }

  /** One executor call per answer, at most three of them, at most one probe, and the last call is the caller's request unless a probe failed. */
  lemma OrchestrateBounds(c: Crumb, answers: seq<Result<Response, Exception>>)
    requires Orchestrate(c, answers).Some?
    ensures var run := Orchestrate(c, answers).value;
      && |run.steps| == |answers|
      && 1 <= |run.steps| <= 3
      && CountProbes(run.steps) <= 1
      && (run.steps[|run.steps| - 1].Probe? ==> run.result.Err? && run.crumb == c)
  {
    var run := Orchestrate(c, answers).value;
    var s := run.steps;
    if |s| == 3 {
      assert s == [Target(c), Probe(c), s[2]] && s[2].Target?;
      assert s[1..][1..] == [s[2]] && s[1..][1..][1..] == [];
      assert CountProbes(s[1..][1..]) == 0;
      assert CountProbes(s[1..]) == 1;
    } else if |s| == 2 {
      assert s[1..][1..] == [];
      assert CountProbes(s[1..]) == (if s[1].Probe? then 1 else 0);
      assert !(s[0].Probe? && s[1].Probe?);
    } else {
      assert s[1..] == [];
    }
  }

  /** Unsupported: the request goes out once, without a crumb, and the state stays Unsupported. */
  lemma UnsupportedNeverProbes(answers: seq<Result<Response, Exception>>)
    requires Orchestrate(Unsupported, answers).Some?
    ensures Orchestrate(Unsupported, answers) == Some(Trace([Target(Unsupported)], Unsupported, answers[0]))
  {
  }

  /**
   * Unset: exactly one probe comes first. A 404 makes the state Unsupported,
   * a good answer makes it Concrete and the request then carries that crumb,
   * and any other failure is raised with the state left Unset.
   */
  lemma UnsetProbesOnce(answers: seq<Result<Response, Exception>>)
    requires Orchestrate(Unset, answers).Some?
    ensures var run := Orchestrate(Unset, answers).value;
      && run.steps[0] == Probe(Unset)
      && (ProbeOutcome(answers[0]).Ok? ==>
            run == Trace([Probe(Unset), Target(ProbeOutcome(answers[0]).value)], ProbeOutcome(answers[0]).value, answers[1]))
      && (answers[0].Err? && IsNotFound(answers[0].error) ==> run.crumb == Unsupported && run.steps[1] == Target(Unsupported))
      && (ProbeOutcome(answers[0]).Err? ==> run == Trace([Probe(Unset)], Unset, Err(ProbeOutcome(answers[0]).error)))
  {
  }

  /**
   * Concrete: anything but a 403 is returned or raised at once; a 403 gives
   * one probe (still carrying the old crumb) and one more try, whose
   * outcome, a second 403 included, is final.
   */
  lemma ConcreteRetriesOnceOnForbidden(c: Crumb, answers: seq<Result<Response, Exception>>)
    requires c.Concrete? && Orchestrate(c, answers).Some?
    ensures var run := Orchestrate(c, answers).value;
      && run.steps[0] == Target(c)
      && (!(answers[0].Err? && IsForbidden(answers[0].error)) ==> run == Trace([Target(c)], c, answers[0]))
      && (answers[0].Err? && IsForbidden(answers[0].error) ==>
            && run.steps[1] == Probe(c)
            && (ProbeOutcome(answers[1]).Err? ==> run == Trace([Target(c), Probe(c)], c, Err(ProbeOutcome(answers[1]).error)))
            && (ProbeOutcome(answers[1]).Ok? ==>
                  run == Trace([Target(c), Probe(c), Target(ProbeOutcome(answers[1]).value)], ProbeOutcome(answers[1]).value, answers[2])))
  {
  }

  /** Several logical requests in a row, each with its own answers, each starting from the crumb the previous one left. */
  function Sequence(c: Crumb, perCall: seq<seq<Result<Response, Exception>>>): Option<(Crumb, seq<Step>)>
    decreases |perCall|
  {
    if |perCall| == 0 then Some((c, []))
    else
      match Orchestrate(c, perCall[0])
      case None => None
      case Some(run) =>
        match Sequence(run.crumb, perCall[1..])
        case None => None
        case Some(rest) => Some((rest.0, run.steps + rest.1))
  }

  /** Once Unsupported, always Unsupported: no later request ever probes the crumb issuer again. */
  lemma {:induction false} UnsupportedIsTerminal(perCall: seq<seq<Result<Response, Exception>>>)
    requires Sequence(Unsupported, perCall).Some?
    ensures Sequence(Unsupported, perCall).value.0 == Unsupported
    ensures forall k :: 0 <= k < |Sequence(Unsupported, perCall).value.1| ==>
              Sequence(Unsupported, perCall).value.1[k] == Target(Unsupported)
    decreases |perCall|
  {
    if |perCall| > 0 {
      UnsupportedIsTerminal(perCall[1..]);
    }
  }

  /** Whatever the crumb, the probes in a series of requests can be counted per request: at most one each. */
  lemma {:induction false} ProbesPerSequence(c: Crumb, perCall: seq<seq<Result<Response, Exception>>>)
    requires Sequence(c, perCall).Some?
    ensures CountProbes(Sequence(c, perCall).value.1) <= |perCall|
    decreases |perCall|
  {
    if |perCall| > 0 {
      var run := Orchestrate(c, perCall[0]).value;
      OrchestrateBounds(c, perCall[0]);
      ProbesPerSequence(run.crumb, perCall[1..]);
      CountProbesAppend(run.steps, Sequence(run.crumb, perCall[1..]).value.1);
    }
  }

  lemma {:induction false} CountProbesAppend(a: seq<Step>, b: seq<Step>)
    ensures CountProbes(a + b) == CountProbes(a) + CountProbes(b)
    decreases |a|
  {
    if |a| == 0 {
      assert a + b == b;
    } else {
      CountProbesAppend(a[1..], b);
      assert (a + b)[1..] == a[1..] + b;
      assert (a + b)[0] == a[0];
      assert CountProbes(a + b) == (if a[0].Probe? then 1 else 0) + CountProbes(a[1..] + b);
    }
  }
}
