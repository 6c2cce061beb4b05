/**
 * The pure parts of `Jenkins.__init__` and `Jenkins._http_request`: the
 * client configuration, how a request is prepared, and how the outcome of
 * the session is turned into a response or an exception.
 */
module Executor {
  import opened Wrappers
  import opened Text
  import opened Dicts
  import opened Exceptions
  import opened Http
  import opened Retry
  import opened Crumbs

  /** What `__init__` keeps: normalised host, TLS flag, retry options, auth and timeout. */
  datatype Config = Config(
    host: string,
    verify: bool,
    retry: Option<Dict<string, RetryArg>>,
    auth: Option<Credentials>,
    timeout: Option<real>)

  /** A Python string argument that is given and non-empty (truthy). */
  predicate Given(s: Option<string>) {
    s.Some? && s.value != ""
  }

  /**
   * `Jenkins.__init__`: the host loses every trailing '/', credentials are
   * kept only when user and password are both non-empty, a zero timeout
   * counts as none, and the retry options are stored without validation.
   */
  function Configure(host: string, user: Option<string>, password: Option<string>,
                     verify: bool, timeout: Option<real>, retry: Option<Dict<string, RetryArg>>): (cfg: Config)
    ensures |cfg.host| > 0 ==> cfg.host[|cfg.host| - 1] != '/'
    ensures StartsWith(host, cfg.host) && forall i :: |cfg.host| <= i < |host| ==> host[i] == '/'
    ensures cfg.auth.Some? <==> Given(user) && Given(password)
    ensures cfg.auth.Some? ==> cfg.auth.value == BasicAuth(user.value, password.value)
    ensures cfg.timeout.Some? <==> timeout.Some? && timeout.value != 0.0
    ensures cfg.timeout.Some? ==> cfg.timeout == timeout
    ensures cfg.verify == verify && cfg.retry == retry
  {
    Config(
      RStrip(host, '/'),
      verify,
      retry,
      if Given(user) && Given(password) then Some(BasicAuth(user.value, password.value)) else None,
      if timeout.Some? && timeout.value != 0.0 then timeout else None)
  }

  /** `if self.retry:` — retrying is on when options are given and the dict is non-empty. */
  predicate RetryEnabled(cfg: Config) {
    cfg.retry.Some? && |cfg.retry.value| > 0
  }

  /** A path starting with "http" is used verbatim; any other is appended to the host. */
  function ResolveUrl(host: string, path: string): (url: string)
    ensures StartsWith(path, "http") ==> url == path
    ensures !StartsWith(path, "http") ==> StartsWith(url, host) && url[|host|..] == path
  {
    if StartsWith(path, "http") then path else host + path
  }

  /**
   * The crumb entry merged into the caller's headers, which are created
   * when absent; without a crumb the headers are left as they are.
   */
  function AttachCrumb(headers: Option<map<string, string>>, c: Crumb): Option<map<string, string>> {
    if c.Concrete? then
      var h := if headers.Some? then headers.value else map[];
      Some(h[c.field := c.token])
    else headers
  }

  /**
   * The crumb entry wins over a caller header of the same name, every
   * other caller header is kept, and without a crumb nothing changes.
   */
  lemma CrumbHeaders(headers: Option<map<string, string>>, c: Crumb)
    ensures var r := AttachCrumb(headers, c);
      && (!c.Concrete? ==> r == headers)
      && (c.Concrete? ==> r.Some? && c.field in r.value && r.value[c.field] == c.token)
      && (c.Concrete? ==> r.value.Keys == (if headers.Some? then headers.value.Keys else {}) + {c.field})
      && (c.Concrete? && headers.Some? ==>
            forall h :: h in headers.value && h != c.field ==> r.value[h] == headers.value[h])
  {
  }

  /**
   * The request `_http_request` hands to the session: configured auth and
   * timeout fill in what the caller left out, the crumb goes into the
   * headers, the URL is resolved against the host, and `ssl` is the verify
   * flag.
   */
  function Prepare(cfg: Config, c: Crumb, verb: string, path: string, kw: Options): Request {
    var withAuth := if cfg.auth.Some? && kw.auth.None? then kw.(auth := cfg.auth) else kw;
    var withTimeout := if cfg.timeout.Some? && withAuth.timeout.None? then withAuth.(timeout := cfg.timeout) else withAuth;
    var withCrumb := withTimeout.(headers := AttachCrumb(withTimeout.headers, c));
    Request(verb, ResolveUrl(cfg.host, path), cfg.verify, withCrumb)
  }

  /**
   * Auth and timeout given by the caller win over the configured ones;
   * params and data pass through untouched.
   */
  lemma PreparedRequest(cfg: Config, c: Crumb, verb: string, path: string, kw: Options)
    ensures var req := Prepare(cfg, c, verb, path, kw);
      && req.verb == verb && req.ssl == cfg.verify
      && req.url == ResolveUrl(cfg.host, path)
      && (kw.auth.Some? ==> req.options.auth == kw.auth)
      && (kw.auth.None? ==> req.options.auth == cfg.auth)
      && (kw.timeout.Some? ==> req.options.timeout == kw.timeout)
      && (kw.timeout.None? ==> req.options.timeout == cfg.timeout)
      && req.options.headers == AttachCrumb(kw.headers, c)
      && req.options.params == kw.params && req.options.data == kw.data
  {
  }

  /** The first part of every status error message. */
  function StatusPrefix(status: int): string {
    "Request error [" + IntToString(status) + "], "
  }

  const AuthHint := "probably authentication problem"

  /** 401, 403 and 500 are reported as probable authentication problems. */
  predicate AuthLike(status: int) {
    status == 401 || status == 403 || status == 500
  }

  /** The message of the JenkinsError raised for a status of 400 or more other than 404. */
  function ErrorMessage(status: int, text: string): string {
    StatusPrefix(status) + (if AuthLike(status) then AuthHint + ":\n" else "\n") + text
  }

  /**
   * The status check of `_http_request`: 404 raises JenkinsNotFoundError,
   * any other status of 400 or more a JenkinsError carrying that status,
   * and anything lower returns the response unchanged.
   */
  function Classify(resp: Response): (r: Result<Response, Exception>)
    ensures r.Ok? <==> resp.status < 400
    ensures r.Ok? ==> r.value == resp
    ensures resp.status == 404 ==>
              r == Err(Jenkins(NewNotFoundError(Some(StatusPrefix(404) + resp.text), Some(404))))
    ensures resp.status >= 400 && resp.status != 404 ==>
              r == Err(Jenkins(NewJenkinsError(Some(ErrorMessage(resp.status, resp.text)), Some(resp.status))))
    ensures r.Err? ==> r.error.Jenkins? && r.error.error.status == Some(resp.status)
  {
    if resp.status == 404 then
      Err(Jenkins(NewNotFoundError(Some(StatusPrefix(resp.status) + resp.text), Some(resp.status))))
    else if resp.status >= 400 then
      Err(Jenkins(NewJenkinsError(Some(ErrorMessage(resp.status, resp.text)), Some(resp.status))))
    else Ok(resp)
  }

  /** The message of an error status names an authentication problem exactly for 401, 403 and 500. */
  lemma AuthHintExactly(status: int, text: string)
    ensures StartsWith(ErrorMessage(status, text), StatusPrefix(status) + AuthHint) <==> AuthLike(status)
  {
    var p := StatusPrefix(status);
    var m := ErrorMessage(status, text);
    if !AuthLike(status) && |m| >= |p + AuthHint| {
      assert m[|p|] == '\n';
      assert (p + AuthHint)[|p|] == 'p';
    }
  }

  /** Only a status of 400 or more other than 404 is classified as a plain JenkinsError, and 404 only as not found. */
  lemma NotFoundOnlyFor404(resp: Response)
    ensures Classify(resp).Err? && IsNotFound(Classify(resp).error) <==> resp.status == 404
  {
  }

  /**
   * `_http_request` after the session returned: a ClientError is raised
   * again as a status-less JenkinsError, every other exception passes
   * through, and a response is classified by its status.
   */
  function Conclude(sr: Result<Response, Exception>): (r: Result<Response, Exception>)
    ensures r.Ok? <==> sr.Ok? && sr.value.status < 400
    ensures r.Ok? ==> r == sr
    ensures r.Err? ==> !r.error.ClientError?
    ensures sr.Err? && sr.error.ClientError? ==> r == Err(Jenkins(NewJenkinsError()))
    ensures sr.Err? && !sr.error.ClientError? ==> r == sr
  {
    match sr
    case Err(ClientError) => Err(Jenkins(NewJenkinsError()))
    case Err(e) => Err(e)
    case Ok(resp) => Classify(resp)
  }

  /** The session `_http_request` sends through, as far as the outcome is concerned. */
  datatype Channel =
    | Direct(closed: bool)                     // a ClientSession
    | Retried(policy: RetryPolicy, closed: bool) // a RetryClientSession
    | Refused(error: JenkinsError)              // `_get_session` raised while validating the retry options

  predicate ChannelOk(ch: Channel) {
    ch.Retried? ==> ch.policy.total > 0
  }

  /** What the session returns for `req`, sent first as the server's `start`-th request, and how many requests reach the server. */
  function Transmit(ch: Channel, reply: (nat, Request) -> Answer, start: nat, req: Request): (out: (Result<Response, Exception>, nat))
    requires ChannelOk(ch)
    ensures ch.Direct? ==> out.1 == (if ch.closed then 0 else 1)
    ensures ch.Refused? ==> out == (Err(Jenkins(ch.error)), 0)
  {
    match ch
    case Direct(closed) => (SessionOutcome(closed, reply, start, req), if closed then 0 else 1)
    case Retried(p, closed) =>
      var run := Run(p, Attempts(closed, reply, start, req, p.total));
      (run.result, if closed then 0 else run.attempts)
    case Refused(e) => (Err(Jenkins(e)), 0)
  }

  /**
   * Without retry, a timeout escapes `_http_request` as asyncio.TimeoutError
   * (only ClientError is caught there); through a one-attempt retry session
   * the same timeout becomes a status-less JenkinsError.
   */
  lemma TimeoutHandling(reply: (nat, Request) -> Answer, start: nat, req: Request, p: RetryPolicy)
    requires reply(start, req) == TimesOut && p.total == 1
    ensures Conclude(Transmit(Direct(false), reply, start, req).0) == Err(TimeoutError)
    ensures Conclude(Transmit(Retried(p, false), reply, start, req).0) == Err(Jenkins(NewJenkinsError()))
  {
  }

  /** However the session is set up, the executor never raises a bare ClientError. */
  lemma NoBareClientError(ch: Channel, reply: (nat, Request) -> Answer, start: nat, req: Request)
    requires ChannelOk(ch)
    ensures var r := Conclude(Transmit(ch, reply, start, req).0); r.Err? ==> !r.error.ClientError?
  {
  }
}
