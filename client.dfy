/**
 * The `Jenkins` client object: its session, held lazily; the crumb it
 * has learned; the request executor `_http_request`; the crumb probe
 * `_get_crumb`; the orchestrator `_request`; and the server-level calls
 * built on them (status, version, readiness, API tokens).
 */
module Client {
  import opened Wrappers
  import opened Text
  import opened Dicts
  import opened Json
  import opened Exceptions
  import opened Http
  import opened Retry
  import opened Crumbs
  import opened Executor
  import opened Versions
  import opened Paths

  /** `self._session`: a plain session or a retrying one. */
  datatype SessionRef = Plain(plain: ClientSession) | Retrying(retrying: RetryClientSession)

  /** One call of `_http_request`: its arguments, the crumb attached, and what it returned or raised. */
  datatype Exec = Exec(verb: string, path: string, options: Options, attached: Crumb, result: Result<Response, Exception>)

  /** One call of `_request` and what it returned or raised. */
  datatype Exchange = Exchange(verb: string, path: string, options: Options, result: Result<Response, Exception>)

  /** The executor call behind one step of a `_request` trace. */
  function StepExec(step: Step, answer: Result<Response, Exception>, verb: string, path: string, kw: Options): (e: Exec)
    ensures e.attached == step.attached && e.result == answer
    ensures step.Probe? ==> e.verb == "GET" && e.path == CrumbPath && e.options == NoOptions
    ensures step.Target? ==> e.verb == verb && e.path == path && e.options == kw
  {
    match step
    case Probe(c) => Exec("GET", CrumbPath, NoOptions, c, answer)
    case Target(c) => Exec(verb, path, kw, c, answer)
  }

  /**
   * The keyword arguments of `_request` after an executor call that attached
   * crumb `c`: `_http_request` writes the crumb into the caller's headers
   * dict in place, so a caller who passed headers sends that entry again on
   * the next call; without caller headers the executor's dict is its own.
   */
  function Resent(kw: Options, c: Crumb): (k: Options)
    ensures k.params == kw.params && k.data == kw.data && k.auth == kw.auth && k.timeout == kw.timeout
    ensures k.headers.Some? <==> kw.headers.Some?
    ensures kw.headers.Some? && c.Concrete? ==>
      && c.field in k.headers.value && k.headers.value[c.field] == c.token
      && forall name :: name in kw.headers.value && name != c.field ==>
           name in k.headers.value && k.headers.value[name] == kw.headers.value[name]
    ensures kw.headers.Some? && c.Concrete? ==> k.headers.value.Keys == kw.headers.value.Keys + {c.field}
    ensures kw.headers.None? || !c.Concrete? ==> k == kw
  {
    if kw.headers.Some? then kw.(headers := AttachCrumb(kw.headers, c)) else kw
  }

  /**
   * The executor calls `_request(verb, path, **kw)` makes, given the steps of
   * its trace and the answers to them; each request after the first sees the
   * caller's headers as the calls before it left them.
   */
  function StepExecs(steps: seq<Step>, answers: seq<Result<Response, Exception>>,
                     verb: string, path: string, kw: Options): (es: seq<Exec>)
    requires |steps| == |answers|
    ensures |es| == |steps|
    ensures forall i :: 0 <= i < |es| ==> es[i].result == answers[i] && es[i].attached == steps[i].attached
    decreases |steps|
  {
    if |steps| == 0 then []
    else
      var next := if steps[0].Target? then Resent(kw, steps[0].attached) else kw;
      [StepExec(steps[0], answers[0], verb, path, kw)] + StepExecs(steps[1..], answers[1..], verb, path, next)
  }

  /** `steps` lead from `s0` to `s1`, each one through `step`, which fails (None) on a step that cannot happen there. */
  ghost predicate Chain<S, E>(step: (S, E) -> Option<S>, s0: S, es: seq<E>, s1: S)
    decreases |es|
  {
    if |es| == 0 then s1 == s0
    else step(s0, es[0]).Some? && Chain(step, step(s0, es[0]).value, es[1..], s1)
  }

  lemma {:induction false} ChainAppend<S, E>(step: (S, E) -> Option<S>, s0: S, a: seq<E>, s1: S, b: seq<E>, s2: S)
    requires Chain(step, s0, a, s1) && Chain(step, s1, b, s2)
    ensures Chain(step, s0, a + b, s2)
    decreases |a|
  {
    if |a| > 0 {
      ChainAppend(step, step(s0, a[0]).value, a[1..], s1, b, s2);
      assert (a + b)[0] == a[0];
      assert (a + b)[1..] == a[1..] + b;
    } else {
      assert a + b == b;
    }
  }

  /** The executor call `e`, made when the server had received `sent0`, returned what the session's outcome concludes to. */
  ghost predicate Answered(cfg: Config, ch: Channel, reply: (nat, Request) -> Answer, sent0: seq<Request>, e: Exec)
    requires ChannelOk(ch)
  {
    var req := Prepare(cfg, e.attached, e.verb, e.path, e.options);
    e.result == Conclude(Transmit(ch, reply, |sent0|, req).0)
  }

  /** The server log after the executor call `e`. */
  ghost function After(cfg: Config, ch: Channel, reply: (nat, Request) -> Answer, sent0: seq<Request>, e: Exec): seq<Request>
    requires ChannelOk(ch)
  {
    var req := Prepare(cfg, e.attached, e.verb, e.path, e.options);
    sent0 + Repeat(req, Transmit(ch, reply, |sent0|, req).1)
  }

  /** One executor call as the server sees it: the log it leaves, provided the call returned what the session gave. */
  ghost function Serve(cfg: Config, ch: Channel, reply: (nat, Request) -> Answer): (seq<Request>, Exec) -> Option<seq<Request>>
  {
    (sent0: seq<Request>, e: Exec) =>
      if ChannelOk(ch) && Answered(cfg, ch, reply, sent0, e) then Some(After(cfg, ch, reply, sent0, e)) else None
  }

  /**
   * The server log grows from `sent0` to `sent1` exactly by the requests
   * the executor calls `es` send, one after the other, through channel
   * `ch`, and each call's result is what the executor makes of the
   * session's outcome.
   */
  ghost predicate Served(cfg: Config, ch: Channel, reply: (nat, Request) -> Answer,
                         sent0: seq<Request>, es: seq<Exec>, sent1: seq<Request>)
  {
    Chain(Serve(cfg, ch, reply), sent0, es, sent1)
  }

  /** A single executor call, as `Jenkins.HttpRequest` states it. */
  lemma ServedOne(cfg: Config, ch: Channel, reply: (nat, Request) -> Answer,
                  sent0: seq<Request>, e: Exec, sent1: seq<Request>)
    requires ChannelOk(ch)
    requires var req := Prepare(cfg, e.attached, e.verb, e.path, e.options);
      var out := Transmit(ch, reply, |sent0|, req);
      e.result == Conclude(out.0) && sent1 == sent0 + Repeat(req, out.1)
    ensures Served(cfg, ch, reply, sent0, [e], sent1)
  {
    assert Serve(cfg, ch, reply)(sent0, e) == Some(sent1);
    assert [e][1..] == [];
  }

  /** `await response.json()` on what `_request` gave: its error, or the decoded body, or a decode error. */
  function Body(r: Result<Response, Exception>): (b: Result<Json, Exception>)
    ensures b.Ok? <==> r.Ok? && r.value.json.Some?
    ensures b.Ok? ==> b.value == r.value.json.value
    ensures r.Err? ==> b == Err(r.error)
    ensures r.Ok? && r.value.json.None? ==> b == Err(Malformed)
  {
    match r
    case Err(e) => Err(e)
    case Ok(resp) => if resp.json.Some? then Ok(resp.json.value) else Err(Malformed)
  }

  /** A request an endpoint hands to `_request`: method, path and keyword arguments. */
  datatype Call = Call(verb: string, path: string, options: Options)

  /** A `_request` call as the client's history records it. */
  function Made(c: Call, result: Result<Response, Exception>): Exchange {
    Exchange(c.verb, c.path, c.options, result)
  }

  /** An endpoint that returns None: the response is dropped, an error propagates. */
  function Discard(r: Result<Response, Exception>): (d: Result<(), Exception>)
    ensures d.Ok? <==> r.Ok?
    ensures r.Err? ==> d == Err(r.error)
  {
    if r.Ok? then Ok(()) else Err(r.error)
  }

  /** `is_ready` given what `get_status` gave: a JenkinsError means not ready; otherwise readiness is `'mode' in status`. */
  function Readiness(status: Result<Json, Exception>): (r: Result<bool, Exception>)
    ensures status.Err? ==> (r == Ok(false) <==> IsJenkinsError(status.error))
    ensures status.Err? && !IsJenkinsError(status.error) ==> r == Err(status.error)
    ensures status.Ok? && status.value.Obj? ==> r == Ok("mode" in status.value.fields)
    ensures r.Err? ==> !IsJenkinsError(r.error)
  {
    match status
    case Err(e) => if IsJenkinsError(e) then Ok(false) else Err(e)
    case Ok(v) =>
      match Contains(v, "mode")
      case None => Err(Malformed)
      case Some(b) => Ok(b)
  }

  /** Whatever the executor answers, `is_ready` never raises a JenkinsError, and it is true only with a "mode" entry. */
  lemma ReadyOnlyWithMode(answer: Result<Response, Exception>)
    ensures var r := Readiness(Body(answer));
      && (r.Err? ==> !IsJenkinsError(r.error))
      && (r == Ok(true) && answer.value.json.value.Obj? ==> "mode" in answer.value.json.value.fields)
  {
  }

  /** The `params` of `generate_token`: the new token's name. */
  function TokenOptions(name: string): Options {
    WithParams(map["newTokenName" := Value(Str(name))])
  }

  const NonOkStatusMessage := "Non OK status returned: "

  /**
   * `generate_token` given the decoded body: a status other than "ok"
   * raises JenkinsError; otherwise the token value and uuid under "data".
   */
  function TokenPair(body: Result<Json, Exception>): (r: Result<(Json, Json), Exception>)
    ensures r.Ok? ==> body.Ok? && Field(body.value, "status") == Some(Str("ok"))
    ensures r.Ok? ==> Field(body.value, "data").Some?
                      && Field(body.value.fields["data"], "tokenValue") == Some(r.value.0)
                      && Field(body.value.fields["data"], "tokenUuid") == Some(r.value.1)
    ensures body.Ok? && Field(body.value, "status").Some? && Field(body.value, "status") != Some(Str("ok")) ==>
              r == Err(Jenkins(NewJenkinsError(Some(NonOkStatusMessage))))
    ensures body.Err? ==> r == Err(body.error)
    ensures r.Ok? <==> && body.Ok? && Field(body.value, "status") == Some(Str("ok"))
                       && Field(body.value, "data").Some?
                       && Field(body.value.fields["data"], "tokenValue").Some?
                       && Field(body.value.fields["data"], "tokenUuid").Some?
    ensures body.Ok? && r.Err? && !(Field(body.value, "status").Some? && Field(body.value, "status") != Some(Str("ok"))) ==>
              r.error == Malformed
  {
    match body
    case Err(e) => Err(e)
    case Ok(content) =>
      match Field(content, "status")
      case None => Err(Malformed)
      case Some(status) =>
        if status != Str("ok") then Err(Jenkins(NewJenkinsError(Some(NonOkStatusMessage))))
        else
          match Field(content, "data")
          case None => Err(Malformed)
          case Some(data) =>
            if Field(data, "tokenValue").Some? && Field(data, "tokenUuid").Some?
            then Ok((Field(data, "tokenValue").value, Field(data, "tokenUuid").value))
            else Err(Malformed)
  }

  /**
   * `{v[key]: v for v in body[list]}`: the listing under `list`, keyed by
   * each element's `key`; a missing listing or key is a KeyError or
   * TypeError (Malformed), and an error getting the body propagates.
   */
  function Listing(body: Result<Json, Exception>, list: string, key: string): (r: Result<map<Json, Json>, Exception>)
    ensures body.Err? ==> r == Err(body.error)
    ensures r.Ok? <==> && body.Ok? && Field(body.value, list).Some?
                       && Elements(Field(body.value, list).value).Some?
                       && AllKeyed(Elements(Field(body.value, list).value).value, key)
    ensures r.Ok? ==> KeyBy(Elements(Field(body.value, list).value).value, key) == Some(r.value)
    ensures body.Ok? && r.Err? ==> r.error == Malformed
  {
    match body
    case Err(e) => Err(e)
    case Ok(doc) =>
      match Field(doc, list)
      case None => Err(Malformed)
      case Some(v) =>
        match Elements(v)
        case None => Err(Malformed)
        case Some(items) =>
          KeyByDefined(items, key);
          match KeyBy(items, key)
          case None => Err(Malformed)
          case Some(m) => Ok(m)
  }

  /**
   * For a listing whose elements all carry `key`: the map's keys are exactly
   * those keys, each maps to the last element carrying it, and there are
   * at most as many entries as elements, exactly as many when keys are distinct.
   */
  lemma ListingContents(doc: Json, list: string, key: string)
    requires Field(doc, list).Some? && Field(doc, list).value.Arr?
    requires AllKeyed(Field(doc, list).value.items, key)
    ensures var items := Field(doc, list).value.items;
      var r := Listing(Ok(doc), list, key);
      && r.Ok?
      && r.value.Keys == KeysOf(items, key)
      && (forall i :: 0 <= i < |items| && LastWithKey(items, key, i) ==> r.value[KeyOf(items[i], key).value] == items[i])
      && |r.value| <= |items|
      && (DistinctKeys(items, key) ==> |r.value| == |items|)
  {
    var items := Field(doc, list).value.items;
    KeyByContents(items, key);
    KeyBySize(items, key);
  }

  /**
   * `headers.get(name)` on aiohttp's case-insensitive multidict: the value
   * of the first header whose name matches, or None when none does.
   */
  function HeaderValue(headers: seq<(string, string)>, name: string): (r: Option<string>)
    ensures r.None? <==> forall i :: 0 <= i < |headers| ==> !SameIgnoringCase(headers[i].0, name)
    ensures r.Some? ==> exists i :: && 0 <= i < |headers| && SameIgnoringCase(headers[i].0, name)
                                    && r.value == headers[i].1
                                    && forall j :: 0 <= j < i ==> !SameIgnoringCase(headers[j].0, name)
    decreases |headers|
  {
    if |headers| == 0 then None
    else if SameIgnoringCase(headers[0].0, name) then Some(headers[0].1)
    else
      var r := HeaderValue(headers[1..], name);
      assert forall i :: 1 <= i < |headers| ==> headers[i] == headers[1..][i - 1];
      r
  }

  /** The value of the `X-Jenkins` header, if the response carries one, whatever the case of its name. */
  function VersionHeader(resp: Response): Option<string> {
    HeaderValue(resp.headers, "X-Jenkins")
  }

  /** A server that spells the header in lower case is still read. */
  lemma VersionHeaderIgnoresCase(version: string, body: string)
    ensures VersionHeader(Response(200, [("x-jenkins", version)], body, None)) == Some(version)
    ensures VersionHeader(Response(200, [("X-Jenkins-Session", "s"), ("X-JENKINS", version)], body, None)) == Some(version)
  {
    assert SameIgnoringCase("x-jenkins", "X-Jenkins");
    assert !SameIgnoringCase("X-Jenkins-Session", "X-Jenkins");
    assert SameIgnoringCase("X-JENKINS", "X-Jenkins");
    var headers := [("X-Jenkins-Session", "s"), ("X-JENKINS", version)];
    assert headers[1..] == [("X-JENKINS", version)];
    assert HeaderValue([("X-JENKINS", version)], "X-Jenkins") == Some(version);
    assert HeaderValue(headers, "X-Jenkins") == HeaderValue(headers[1..], "X-Jenkins");
  }

  /** Once the session is closed, every request fails with the session's own error and reaches no server. */
  lemma ClosedSessionRefuses(ch: Channel, reply: (nat, Request) -> Answer, start: nat, req: Request)
    requires ChannelOk(ch) && !ch.Refused? && ch.closed
    ensures Transmit(ch, reply, start, req) == (Err(SessionClosed), 0)
    ensures Conclude(Transmit(ch, reply, start, req).0) == Err(SessionClosed)
  {
    if ch.Retried? {
      var answers := Attempts(true, reply, start, req, ch.policy.total);
      assert !Retryable(ch.policy, answers[0]);
      RunStopsAtFirstSettled(ch.policy, answers, 0, 0);
    }
  }

  /** The objects whose state decides what a session does with a request. */
  function SessionObjects(s: SessionRef): set<object> {
    match s
    case Plain(cs) => {cs}
    case Retrying(rs) => {rs, rs.session}
  }

  /** What a held session is, as far as the outcome of a request is concerned. */
  ghost function ChannelOf(s: SessionRef): (ch: Channel)
    reads SessionObjects(s)
  {
    match s
    case Plain(cs) => Direct(cs.closed)
    case Retrying(rs) => Retried(rs.policy, rs.session.closed)
  }

  /** `session.request(...)` on whichever kind of session is held. */
  method Deliver(s: SessionRef, server: Server, req: Request) returns (sr: Result<Response, Exception>)
    requires s.Plain? ==> s.plain.server == server
    requires s.Retrying? ==> s.retrying.session.server == server && s.retrying.policy.total > 0
    modifies server, if s.Retrying? then {s.retrying} else {}
    ensures ChannelOk(ChannelOf(s)) && ChannelOf(s) == old(ChannelOf(s))
    ensures var out := Transmit(ChannelOf(s), server.reply, |old(server.sent)|, req);
      sr == out.0 && server.sent == old(server.sent) + Repeat(req, out.1)
  {
    match s {
      case Plain(cs) =>
        sr := cs.Request(req);
        assert Repeat(req, 1) == [req];
      case Retrying(rs) =>
        sr := rs.Request(req);
    }
  }

  lemma AppendAssoc<T>(a: seq<T>, b: seq<T>, c: seq<T>)
    ensures (a + b) + c == a + (b + c)
  {
  }

  /** The crumb probe failed: `_request` raises its error and keeps the crumb. */
  lemma ProbeFailed(c0: Crumb, probe: Exec, verb: string, path: string, kw: Options)
    requires probe == Exec("GET", CrumbPath, NoOptions, c0, probe.result) && ProbeOutcome(probe.result).Err?
    ensures Refresh(c0, [probe.result]) == Some(Trace([Probe(c0)], c0, Err(ProbeOutcome(probe.result).error)))
    ensures StepExecs([Probe(c0)], [probe.result], verb, path, kw) == [probe]
  {
  }

  /** The crumb probe gave `c2`, and the request then went out with it. */
  lemma ProbeSucceeded(c0: Crumb, probe: Exec, last: Exec, verb: string, path: string, kw: Options)
    requires probe == Exec("GET", CrumbPath, NoOptions, c0, probe.result) && ProbeOutcome(probe.result).Ok?
    requires last == Exec(verb, path, kw, ProbeOutcome(probe.result).value, last.result)
    ensures Refresh(c0, [probe.result, last.result])
         == Some(Trace([Probe(c0), Target(last.attached)], last.attached, last.result))
    ensures StepExecs([Probe(c0), Target(last.attached)], [probe.result, last.result], verb, path, kw) == [probe, last]
  {
  }

  /** A single request with the crumb held, and no probe. */
  lemma SentOnce(c0: Crumb, sent: Exec, verb: string, path: string, kw: Options)
    requires sent == Exec(verb, path, kw, c0, sent.result)
    requires c0.Unsupported? || (c0.Concrete? && !(sent.result.Err? && IsForbidden(sent.result.error)))
    ensures Orchestrate(c0, [sent.result]) == Some(Trace([Target(c0)], c0, sent.result))
    ensures StepExecs([Target(c0)], [sent.result], verb, path, kw) == [sent]
  {
  }

  /**
   * After a 403, the second attempt goes out with the caller's headers as the
   * first attempt left them: when the re-probe finds no crumb issuer, the old
   * crumb entry is still among the headers sent.
   */
  lemma {:induction false} ResendCarriesFirstCrumb(cfg: Config, c0: Crumb, answers: seq<Result<Response, Exception>>,
                                                   verb: string, path: string, kw: Options)
    requires c0.Concrete? && Orchestrate(c0, answers).Some? && |answers| == 3
    ensures var t := Orchestrate(c0, answers).value;
      var es := StepExecs(t.steps, answers, verb, path, kw);
      && es[0].options == kw && es[2].options == Resent(kw, c0)
    ensures var t := Orchestrate(c0, answers).value;
      var es := StepExecs(t.steps, answers, verb, path, kw);
      kw.headers.Some? && t.crumb.Unsupported? ==>
        var sent := Prepare(cfg, es[2].attached, verb, path, es[2].options).options.headers;
        && sent.Some? && c0.field in sent.value && sent.value[c0.field] == c0.token
  {
    var t := Orchestrate(c0, answers).value;
    var run := Refresh(c0, answers[1..]).value;
    assert t.steps == [Target(c0), Probe(c0), Target(run.crumb)];
    var k1 := Resent(kw, c0);
    var es := StepExecs(t.steps, answers, verb, path, kw);
    assert t.steps[1..] == [Probe(c0), Target(run.crumb)];
    assert es == [StepExec(Target(c0), answers[0], verb, path, kw)] + StepExecs(t.steps[1..], answers[1..], verb, path, k1);
    assert t.steps[1..][1..] == [Target(run.crumb)];
    assert StepExecs(t.steps[1..], answers[1..], verb, path, k1)
        == [StepExec(Probe(c0), answers[1], verb, path, k1)] + StepExecs([Target(run.crumb)], answers[1..][1..], verb, path, k1);
  }

  /** A 403 with the crumb held, followed by a probe and a second attempt. */
  lemma RetriedAfterForbidden(cfg: Config, ch: Channel, reply: (nat, Request) -> Answer,
                              c0: Crumb, sent: Exec, rest: seq<Result<Response, Exception>>, more: seq<Exec>,
                              verb: string, path: string, kw: Options,
                              sent0: seq<Request>, sent1: seq<Request>, sent2: seq<Request>)
    requires ChannelOk(ch)
    requires c0.Concrete? && sent == Exec(verb, path, kw, c0, sent.result)
    requires sent.result.Err? && IsForbidden(sent.result.error)
    requires Refresh(c0, rest).Some? && more == StepExecs(Refresh(c0, rest).value.steps, rest, verb, path, Resent(kw, c0))
    requires Served(cfg, ch, reply, sent0, [sent], sent1) && Served(cfg, ch, reply, sent1, more, sent2)
    ensures Orchestrate(c0, [sent.result] + rest).Some?
    ensures var t := Orchestrate(c0, [sent.result] + rest).value;
      && t.crumb == Refresh(c0, rest).value.crumb && t.result == Refresh(c0, rest).value.result
      && [sent] + more == StepExecs(t.steps, [sent.result] + rest, verb, path, kw)
    ensures Served(cfg, ch, reply, sent0, [sent] + more, sent2)
  {
    var answers := [sent.result] + rest;
    var t := Refresh(c0, rest).value;
    assert answers[1..] == rest;
    assert ([Target(c0)] + t.steps)[1..] == t.steps;
    ChainAppend(Serve(cfg, ch, reply), sent0, [sent], sent1, more, sent2);
  }

  /**
   * The session `_get_session` creates first: a retrying one when retry
   * options are given and non-empty and they validate, a refusal when they
   * do not validate, and a plain session otherwise.
   */
  ghost function FirstChannel(cfg: Config): (ch: Channel)
    requires cfg.retry.Some? ==> WellTyped(cfg.retry.value)
    ensures ChannelOk(ch) && (!ch.Refused? ==> !ch.closed)
    ensures ch.Refused? <==> RetryEnabled(cfg) && Validate(cfg.retry.value).Err?
  {
    if RetryEnabled(cfg) then
      match Validate(cfg.retry.value)
      case Ok(p) => Retried(p, false)
      case Err(e) => Refused(e)
    else Direct(false)
  }

  /** What a client has done so far: the crumb held, the server's log, the executor calls and the `_request` calls. */
  datatype ClientState = ClientState(crumb: Crumb, sent: seq<Request>, execs: seq<Exec>, history: seq<Exchange>)

  /** The results of the executor calls `es`, in order. */
  function Results(es: seq<Exec>): (rs: seq<Result<Response, Exception>>)
    ensures |rs| == |es| && forall i :: 0 <= i < |es| ==> rs[i] == es[i].result
  {
    seq(|es|, i requires 0 <= i < |es| => es[i].result)
  }

  /**
   * One `_request` for `call`, through channel `ch`, takes the client from
   * `s0` to `s1` and returns `result`: the executor calls it appends are the
   * ones its crumb trace prescribes for the answers they got, the server's
   * log grows by exactly what those calls send, the crumb afterwards is the
   * trace's, and the history records the call with its result.
   */
  ghost predicate Requested(cfg: Config, ch: Channel, reply: (nat, Request) -> Answer,
                            s0: ClientState, call: Call, result: Result<Response, Exception>, s1: ClientState)
  {
    && s1.history == s0.history + [Made(call, result)]
    && |s0.execs| <= |s1.execs| && s1.execs[..|s0.execs|] == s0.execs
    && var calls := s1.execs[|s0.execs|..];
       && Orchestrate(s0.crumb, Results(calls)).Some?
       && var t := Orchestrate(s0.crumb, Results(calls)).value;
          && s1.crumb == t.crumb && result == t.result
          && calls == StepExecs(t.steps, Results(calls), call.verb, call.path, call.options)
          && Served(cfg, ch, reply, s0.sent, calls, s1.sent)
  }

  /** `Jenkins.Request`'s guarantees, gathered into one step of the client. */
  lemma RequestedFrom(cfg: Config, ch: Channel, reply: (nat, Request) -> Answer, s0: ClientState, call: Call,
                      r: Result<Response, Exception>, answers: seq<Result<Response, Exception>>, calls: seq<Exec>,
                      s1: ClientState)
    requires Orchestrate(s0.crumb, answers).Some?
    requires var t := Orchestrate(s0.crumb, answers).value;
      && s1.crumb == t.crumb && r == t.result
      && calls == StepExecs(t.steps, answers, call.verb, call.path, call.options)
    requires s1.execs == s0.execs + calls
    requires Served(cfg, ch, reply, s0.sent, calls, s1.sent)
    requires s1.history == s0.history + [Made(call, r)]
    ensures Requested(cfg, ch, reply, s0, call, r, s1)
  {
    assert s1.execs[..|s0.execs|] == s0.execs;
    assert s1.execs[|s0.execs|..] == calls;
    var t := Orchestrate(s0.crumb, answers).value;
    ResultsOfStepExecs(t.steps, answers, call.verb, call.path, call.options);
  }

  /** The executor calls of a trace got exactly the answers they were given. */
  lemma ResultsOfStepExecs(steps: seq<Step>, answers: seq<Result<Response, Exception>>, verb: string, path: string, kw: Options)
    requires |steps| == |answers|
    ensures Results(StepExecs(steps, answers, verb, path, kw)) == answers
  {
    var es := StepExecs(steps, answers, verb, path, kw);
    assert forall i :: 0 <= i < |answers| ==> Results(es)[i] == answers[i];
  }

  /** The server's log only grows: every step of a chain of executor calls appends to it. */
  lemma {:induction false} ServedGrows(cfg: Config, ch: Channel, reply: (nat, Request) -> Answer,
                                       sent0: seq<Request>, es: seq<Exec>, sent1: seq<Request>)
    requires Served(cfg, ch, reply, sent0, es, sent1)
    ensures |sent0| <= |sent1| && sent1[..|sent0|] == sent0
    decreases |es|
  {
    if |es| > 0 {
      var mid := Serve(cfg, ch, reply)(sent0, es[0]).value;
      assert mid == After(cfg, ch, reply, sent0, es[0]);
      ServedGrows(cfg, ch, reply, mid, es[1..], sent1);
      assert mid[..|sent0|] == sent0;
      assert sent1[..|sent0|] == mid[..|mid|][..|sent0|];
    }
  }

  /**
   * One `_request` makes one to three executor calls, exactly one when the
   * server is known to issue no crumb, and it keeps the server's log as it
   * was, only appending to it.
   */
  lemma RequestedBounds(cfg: Config, ch: Channel, reply: (nat, Request) -> Answer,
                        s0: ClientState, call: Call, result: Result<Response, Exception>, s1: ClientState)
    requires Requested(cfg, ch, reply, s0, call, result, s1)
    ensures |s0.sent| <= |s1.sent| && s1.sent[..|s0.sent|] == s0.sent
    ensures 1 <= |s1.execs| - |s0.execs| <= 3
    ensures s0.crumb.Unsupported? ==>
      && s1.crumb.Unsupported? && |s1.execs| == |s0.execs| + 1
      && s1.execs[|s0.execs|] == Exec(call.verb, call.path, call.options, Unsupported, result)
  {
    var calls := s1.execs[|s0.execs|..];
    ServedGrows(cfg, ch, reply, s0.sent, calls, s1.sent);
    var t := Orchestrate(s0.crumb, Results(calls)).value;
    if s0.crumb.Concrete? && !(Results(calls)[0].Err? && IsForbidden(Results(calls)[0].error)) {
      assert |Results(calls)| == 1;
    }
  }

  class Jenkins {
    const config: Config
    /** the Jenkins server every session of this client talks to */
    const server: Server
    var crumb: Crumb
    var session: Option<SessionRef>
    /** every executor call so far, in order */
    ghost var execs: seq<Exec>
    /** every `_request` call so far, in order */
    ghost var history: seq<Exchange>
    /** the session the next executor call goes through: the one held, or the one `_get_session` would create */
    ghost var channel: Channel
    ghost var Repr: set<object>

    /** The client's state as the server and the executor have seen it. */
    ghost function State(): ClientState
      reads this, server
    {
      ClientState(crumb, server.sent, execs, history)
    }

    ghost predicate Valid()
      reads this`Repr, this`session, this`channel, Repr - {this}
    {
      && this in Repr && server in Repr
      && (config.retry.Some? ==> WellTyped(config.retry.value))
      && ChannelOk(channel)
      && match session
         case None => channel == FirstChannel(config)
         case Some(Plain(s)) =>
           s in Repr && s.server == server && channel == Direct(s.closed)
         case Some(Retrying(rs)) =>
           && rs in Repr && rs.session in Repr && rs.session.server == server
           && channel == Retried(rs.policy, rs.session.closed)
    }

    /** `__init__`: configuration only; no session and no crumb yet. */
    constructor (host: string, user: Option<string>, password: Option<string>, server: Server,
                 verify: bool := true, timeout: Option<real> := None, retry: Option<Dict<string, RetryArg>> := None)
      requires retry.Some? ==> WellTyped(retry.value)
      ensures Valid() && fresh(Repr - {server})
      ensures config == Configure(host, user, password, verify, timeout, retry) && this.server == server
      ensures crumb == Unset && session == None && execs == [] && history == []
      ensures channel == FirstChannel(config)
    {
      var cfg := Configure(host, user, password, verify, timeout, retry);
      config := cfg;
      this.server := server;
      crumb := Unset;
      session := None;
      channel := FirstChannel(cfg);
      execs := [];
      history := [];
      new;
      Repr := {this, server};
    }

    /**
     * `_get_session`: the held session, or a new one; retry options are
     * validated only here, and a failed validation leaves no session.
     */
    method GetSession() returns (r: Result<SessionRef, JenkinsError>)
      requires Valid()
      modifies this
      ensures Valid() && fresh(Repr - old(Repr))
      ensures crumb == old(crumb) && execs == old(execs) && history == old(history)
      ensures old(session).Some? ==> r == Ok(old(session).value) && session == old(session)
      ensures r.Err? <==> old(channel).Refused?
      ensures r.Err? ==> session == None && r.error == old(channel).error
      ensures r.Ok? ==> session == Some(r.value) && channel == old(channel)
    {
      if session.Some? {
        r := Ok(session.value);
        return;
      }
      if RetryEnabled(config) {
        var v := Validate(config.retry.value);
        if v.Err? {
          r := Err(v.error);
          return;
        }
        var rs := new RetryClientSession(config.retry.value, server);
        session := Some(Retrying(rs));
        Repr := Repr + {rs, rs.session};
      } else {
        var s := new ClientSession(server);
        session := Some(Plain(s));
        Repr := Repr + {s};
      }
      r := Ok(session.value);
    }

    /**
     * `_http_request`: prepares the request from the configuration and
     * the crumb held, sends it through the session, and concludes.
     */
    method HttpRequest(verb: string, path: string, kw: Options) returns (r: Result<Response, Exception>)
      requires Valid()
      modifies Repr
      ensures Valid() && fresh(Repr - old(Repr))
      ensures crumb == old(crumb) && history == old(history)
      ensures execs == old(execs) + [Exec(verb, path, kw, crumb, r)]
      ensures channel == old(channel)
      ensures var req := Prepare(config, crumb, verb, path, kw);
        var out := Transmit(old(channel), server.reply, |old(server.sent)|, req);
        r == Conclude(out.0) && server.sent == old(server.sent) + Repeat(req, out.1)
      ensures Served(config, old(channel), server.reply, old(server.sent), [Exec(verb, path, kw, crumb, r)], server.sent)
    {
      ghost var ch := channel;
      ghost var sent0 := server.sent;
      var req := Prepare(config, crumb, verb, path, kw);
      var s := GetSession();
      if s.Err? {
        r := Err(Jenkins(s.error));
      } else {
        assert ChannelOf(s.value) == ch;
        var sr := Deliver(s.value, server, req);
        r := Conclude(sr);
      }
      execs := execs + [Exec(verb, path, kw, crumb, r)];
      ServedOne(config, ch, server.reply, sent0, Exec(verb, path, kw, crumb, r), server.sent);
    }

    /**
     * `_get_crumb`: probes the crumb issuer; a crumb found is stored, a
     * 404 means the server issues none, any other error propagates.
     */
    method GetCrumb() returns (r: Result<Crumb, Exception>, ghost probe: Exec)
      requires Valid()
      modifies Repr
      ensures Valid() && fresh(Repr - old(Repr))
      ensures channel == old(channel) && history == old(history)
      ensures execs == old(execs) + [probe]
      ensures probe == Exec("GET", CrumbPath, NoOptions, old(crumb), probe.result)
      ensures r == ProbeOutcome(probe.result)
      ensures crumb == (if r.Ok? && r.value.Concrete? then r.value else old(crumb))
      ensures Served(config, old(channel), server.reply, old(server.sent), [probe], server.sent)
    {
      var answer := HttpRequest("GET", CrumbPath, NoOptions);
      probe := Exec("GET", CrumbPath, NoOptions, crumb, answer);
      r := ProbeOutcome(answer);
      if r.Ok? && r.value.Concrete? {
        crumb := r.value;
      }
    }

    /**
     * The tail of `_request`: probe for a crumb, stopping on a probe error,
     * then send the request with the crumb the probe gave.
     */
    method ProbeAndSend(verb: string, path: string, kw: Options)
      returns (r: Result<Response, Exception>, ghost answers: seq<Result<Response, Exception>>, ghost calls: seq<Exec>)
      requires Valid()
      modifies Repr
      ensures Valid() && fresh(Repr - old(Repr))
      ensures channel == old(channel) && history == old(history)
      ensures execs == old(execs) + calls
      ensures Refresh(old(crumb), answers).Some?
      ensures var t := Refresh(old(crumb), answers).value;
        crumb == t.crumb && r == t.result && calls == StepExecs(t.steps, answers, verb, path, kw)
      ensures Served(config, old(channel), server.reply, old(server.sent), calls, server.sent)
    {
      ghost var c0 := crumb;
      ghost var ch := channel;
      ghost var sent0 := server.sent;
      ghost var e0 := execs;
      var got, probe := GetCrumb();
      ghost var sent1 := server.sent;
      if got.Err? {
        r := Err(got.error);
        answers, calls := [probe.result], [probe];
        ProbeFailed(c0, probe, verb, path, kw);
        return;
      }
      crumb := got.value;
      r := HttpRequest(verb, path, kw);
      ghost var last := Exec(verb, path, kw, got.value, r);
      answers, calls := [probe.result, r], [probe] + [last];
      ProbeSucceeded(c0, probe, last, verb, path, kw);
      ChainAppend(Serve(config, ch, server.reply), sent0, [probe], sent1, [last], server.sent);
      AppendAssoc(e0, [probe], [last]);
    }

    /** `_request` without a crumb header to send: probe first, unless the server is known to issue none. */
    method RequestWithoutCrumb(verb: string, path: string, kw: Options)
      returns (r: Result<Response, Exception>, ghost answers: seq<Result<Response, Exception>>, ghost calls: seq<Exec>)
      requires !crumb.Concrete?
      requires Valid()
      modifies Repr
      ensures Valid() && fresh(Repr - old(Repr))
      ensures channel == old(channel) && history == old(history)
      ensures execs == old(execs) + calls
      ensures Orchestrate(old(crumb), answers).Some?
      ensures var t := Orchestrate(old(crumb), answers).value;
        crumb == t.crumb && r == t.result && calls == StepExecs(t.steps, answers, verb, path, kw)
      ensures Served(config, old(channel), server.reply, old(server.sent), calls, server.sent)
    {
      if crumb.Unset? {
        r, answers, calls := ProbeAndSend(verb, path, kw);
      } else {
        ghost var c0 := crumb;
        r := HttpRequest(verb, path, kw);
        answers, calls := [r], [Exec(verb, path, kw, c0, r)];
        SentOnce(c0, calls[0], verb, path, kw);
      }
    }

    /** `_request` with a crumb: send it; only a 403 leads to a new probe and a second attempt. */
    method RequestWithCrumb(verb: string, path: string, kw: Options)
      returns (r: Result<Response, Exception>, ghost answers: seq<Result<Response, Exception>>, ghost calls: seq<Exec>)
      requires crumb.Concrete?
      requires Valid()
      modifies Repr
      ensures Valid() && fresh(Repr - old(Repr))
      ensures channel == old(channel) && history == old(history)
      ensures execs == old(execs) + calls
      ensures Orchestrate(old(crumb), answers).Some?
      ensures var t := Orchestrate(old(crumb), answers).value;
        crumb == t.crumb && r == t.result && calls == StepExecs(t.steps, answers, verb, path, kw)
      ensures Served(config, old(channel), server.reply, old(server.sent), calls, server.sent)
    {
      ghost var c0 := crumb;
      ghost var ch := channel;
      ghost var sent0 := server.sent;
      ghost var e0 := execs;
      var first := HttpRequest(verb, path, kw);
      ghost var sent1 := server.sent;
      ghost var sent := Exec(verb, path, kw, c0, first);
      if !(first.Err? && IsForbidden(first.error)) {
        r := first;
        answers, calls := [first], [sent];
        SentOnce(c0, sent, verb, path, kw);
      } else {
        ghost var rest, more;
        r, rest, more := ProbeAndSend(verb, path, Resent(kw, crumb));
        answers, calls := [first] + rest, [sent] + more;
        RetriedAfterForbidden(config, ch, server.reply, c0, sent, rest, more, verb, path, kw, sent0, sent1, server.sent);
        AppendAssoc(e0, [sent], more);
      }
    }

    /**
     * `_request`: with a crumb, the request goes out once and only a 403
     * leads to a new probe; without one, the crumb is probed first unless
     * the server is known to issue none; then the request goes out.
     */
    method Request(verb: string, path: string, kw: Options)
      returns (r: Result<Response, Exception>, ghost answers: seq<Result<Response, Exception>>, ghost calls: seq<Exec>)
      requires Valid()
      modifies Repr
      ensures Valid() && fresh(Repr - old(Repr))
      ensures channel == old(channel)
      ensures execs == old(execs) + calls
      ensures Orchestrate(old(crumb), answers).Some?
      ensures var t := Orchestrate(old(crumb), answers).value;
        crumb == t.crumb && r == t.result && calls == StepExecs(t.steps, answers, verb, path, kw)
      ensures Served(config, old(channel), server.reply, old(server.sent), calls, server.sent)
      ensures history == old(history) + [Exchange(verb, path, kw, r)]
      ensures Requested(config, channel, server.reply, old(State()), Call(verb, path, kw), r, State())
    {
      ghost var s0 := State();
      if crumb.Concrete? {
        r, answers, calls := RequestWithCrumb(verb, path, kw);
      } else {
        r, answers, calls := RequestWithoutCrumb(verb, path, kw);
      }
      history := history + [Exchange(verb, path, kw, r)];
      RequestedFrom(config, channel, server.reply, s0, Call(verb, path, kw), r, answers, calls, State());
    }

    /** `close`: closes the session held; without one there is nothing to close. */
    method Close()
      requires Valid()
      modifies Repr
      ensures Valid() && Repr == old(Repr)
      ensures crumb == old(crumb) && session == old(session)
      ensures execs == old(execs) && history == old(history) && server.sent == old(server.sent)
      ensures channel == match old(session)
                         case None => old(channel)
                         case Some(Plain(_)) => Direct(true)
                         case Some(Retrying(rs)) => Retried(rs.policy, true)
    {
      match session
      case None =>
      case Some(Plain(s)) =>
        s.Close();
        channel := Direct(true);
      case Some(Retrying(rs)) =>
        rs.Close();
        channel := Retried(rs.policy, true);
    }

    /** `get_status`: GET /api/json and its decoded body. */
    method GetStatus() returns (r: Result<Json, Exception>, ghost answer: Result<Response, Exception>)
      requires Valid()
      modifies Repr
      ensures Valid() && fresh(Repr - old(Repr))
      ensures history == old(history) + [Exchange("GET", "/api/json", NoOptions, answer)]
      ensures channel == old(channel)
      ensures Requested(config, channel, server.reply, old(State()), Call("GET", "/api/json", NoOptions), answer, State())
      ensures r == Body(answer)
    {
      ghost var answers, calls;
      var response;
      response, answers, calls := Request("GET", "/api/json", NoOptions);
      answer := response;
      r := Body(response);
    }

    /**
     * `get_version`: GET / and the `X-Jenkins` header parsed into four
     * numbers, padding with "0" up to four fields.
     */
    method GetVersion() returns (r: Result<JenkinsVersion, Exception>, ghost answer: Result<Response, Exception>)
      requires Valid()
      modifies Repr
      ensures Valid() && fresh(Repr - old(Repr))
      ensures history == old(history) + [Exchange("GET", "/", NoOptions, answer)]
      ensures channel == old(channel)
      ensures Requested(config, channel, server.reply, old(State()), Call("GET", "/", NoOptions), answer, State())
      ensures answer.Err? ==> r == Err(answer.error)
      ensures answer.Ok? ==> r == ParseVersion(VersionHeader(answer.value))
    {
      ghost var answers, calls;
      var response;
      response, answers, calls := Request("GET", "/", NoOptions);
      answer := response;
      if response.Err? {
        r := Err(response.error);
        return;
      }
      var header := VersionHeader(response.value);
      if header.None? || header.value == "" {
        r := Err(Jenkins(NewJenkinsError(Some(MissingHeaderMessage))));
        return;
      }
      var versions := PadFields(Split(header.value, '.'));
      r := ToVersion(versions);
    }

    /** `is_ready`: the server status has a "mode" entry; a JenkinsError means not ready. */
    method IsReady() returns (r: Result<bool, Exception>, ghost answer: Result<Response, Exception>)
      requires Valid()
      modifies Repr
      ensures Valid() && fresh(Repr - old(Repr))
      ensures history == old(history) + [Exchange("GET", "/api/json", NoOptions, answer)]
      ensures channel == old(channel)
      ensures Requested(config, channel, server.reply, old(State()), Call("GET", "/api/json", NoOptions), answer, State())
      ensures r == Readiness(Body(answer))
    {
      var status;
      status, answer := GetStatus();
      r := Readiness(status);
    }

    /** `generate_token`: POST to the token descriptor, then the value and uuid of the new token. */
    method GenerateToken(name: string) returns (r: Result<(Json, Json), Exception>, ghost answer: Result<Response, Exception>)
      requires Valid()
      modifies Repr
      ensures Valid() && fresh(Repr - old(Repr))
      ensures history == old(history) + [Exchange("POST", TokenUrl("generateNewToken"), TokenOptions(name), answer)]
      ensures channel == old(channel)
      ensures Requested(config, channel, server.reply, old(State()), Call("POST", TokenUrl("generateNewToken"), TokenOptions(name)), answer, State())
      ensures r == TokenPair(Body(answer))
    {
      ghost var answers, calls;
      var response;
      response, answers, calls := Request("POST", TokenUrl("generateNewToken"), TokenOptions(name));
      answer := response;
      r := TokenPair(Body(response));
    }
  }
}
