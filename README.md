# aiojenkins, modelled in Dafny

This project models the decision logic of `aiojenkins`, an asynchronous
Python client for the Jenkins HTTP API. The Jenkins server is replaced by
an oracle: `Http.Server` answers each request with a response (status,
headers, body text, decoded JSON) or with a transport failure. The answer
may depend on how many requests came before it, and the server records
every request it receives.

On top of that oracle the project models the following.

- **The retrying session (`RetryClientSession`).** Option validation, the
  bounded attempt loop and its backoff schedule. The schedule is kept as a
  ghost log of doubled sleep durations.
- **The `Jenkins` client object.**
  - It holds its configuration, a lazily created session and the CSRF crumb
    it has learned.
  - The request executor `_http_request` prepares the request (auth,
    timeout, crumb header, URL) and classifies the status into
    JenkinsNotFoundError, JenkinsError or success.
  - `_get_crumb` probes the crumb issuer.
  - `_request` orchestrates the crumb:
    - the crumb is Unset, Unsupported or Concrete;
    - a 403 with a crumb triggers one re-probe and one retry;
    - one logical request makes at most three executor calls.
  - Two ghost logs record each executor call and each `_request` call
    (`execs`, `history`). Every method that reaches the server states how
    the server's log grew, and that its outcome equals a pure state machine
    (`Crumbs.Orchestrate`) applied to what the executor answered. Every
    endpoint method states this for each `_request` it makes, through
    `Client.Requested`: the crumb, the executor log, the server's log and
    the history before and after the call.
- **The server-level calls:** `close`, `get_status`, `get_version` with its
  version-header parser, `is_ready` and `generate_token`. Also the static
  helpers `_get_folder_and_job_name` and `_build_token_url`.
- **The endpoint groups.**
  - `Nodes`: name normalisation, listing, info, existence, creation with
    in-place defaulting of the caller's configuration, deletion,
    enable/disable and the offline reason.
  - `Build`: the start payload, stop, delete and info.
  - `Queue`, `Plugins`, `Views`: their keyed listings and requests.
- **The error taxonomy:** `JenkinsError` with its subclass
  `JenkinsNotFoundError`, plus the other exceptions that escape the library
  (aiohttp `ClientError`, `asyncio.TimeoutError`, the closed-session
  `RuntimeError`, and KeyError/TypeError/ValueError on malformed bodies).

Objects the code updates in place are classes: `Jenkins`,
`RetryClientSession`, `ClientSession`, the node configuration dict and the
endpoint groups holding their client. Loops are methods with invariants:
the retry loop, the version padding loop and the folder-name loop. The rest
is functions over datatypes, and lemmas about them.

Where the docstrings and the project's description say one thing and the
code does another, the model follows the code:

- **Timeouts without retry.** A plain session leaks `asyncio.TimeoutError`
  from `_http_request`, because only `ClientError` is caught there
  (`Executor.TimeoutHandling`).
- **The crumb re-probe.** The re-probe after a 403 is sent with the stale
  crumb header still attached (`Crumbs.Step.Probe` carries the crumb).
- **Cookies.** No Set-Cookie value is captured.
- **Server errors.** 5xx statuses are retried only when listed in
  `statuses`.
- **When retry options are validated.** Validation happens when the first
  session is created (`_get_session`), not in `Jenkins.__init__`. An empty
  retry dict is falsy and disables retrying without being validated.
- **The host URL.** `host.rstrip('/')` removes every trailing slash, not
  only one.
- **The build group's name.** `builds.py` defines the class `Build`, but
  `jenkins.py` imports `Builds` (aiojenkins/jenkins.py:15). Importing the
  package (aiojenkins/__init__.py:2) therefore raises ImportError before
  any client exists. The model names the class `Build`, as defined.
- **Caller headers.** `_http_request` writes the crumb into the caller's
  headers dict in place, so after a 403 the second attempt still carries
  the first crumb entry, next to or replaced by the new one
  (`Client.Resent`, `Client.ResendCarriesFirstCrumb`).

## Model

| member | source | states |
|---|---|---|
| Exceptions.NewJenkinsError | aiojenkins/exceptions.py:1-4 | a JenkinsError keeps the message and status it is given, both None by default |
| Exceptions.NewNotFoundError | aiojenkins/exceptions.py:7-8 | JenkinsNotFoundError inherits that constructor and differs only in its class |
| Exceptions.NotFoundIsJenkinsError | aiojenkins/exceptions.py:7-8 | every JenkinsNotFoundError is caught by a handler for JenkinsError |
| Exceptions.StatuslessIsNotForbidden | aiojenkins/jenkins.py:232-234 | an error raised without a status is never taken for a 403, so `_request` never re-probes after it |
| Retry.FirstUnknown | aiojenkins/jenkins.py:44-46 | the first option key outside {total, factor, statuses} in iteration order; None exactly when every key is known |
| Retry.Validate | aiojenkins/jenkins.py:33-49 | options are accepted iff every key is known and `total` is present and > 0; the unknown-key error is reported before the `total` error, with the source's messages and no status; `factor` defaults to 1 and `statuses` to [] |
| Retry.RunShape | aiojenkins/jenkins.py:51-64 | the loop makes between 1 and `total` attempts, and every attempt before the last was retried; stopping early means the last attempt was not retryable; sleeps follow `factor * 2^(i-1)` (kept doubled); there is a sleep after the final attempt exactly when it returned a retryable status |
| Retry.RunStopsAtFirstSettled | aiojenkins/jenkins.py:51-61 | the first attempt that is neither a caught exception nor a retryable status decides the outcome: it is returned or re-raised as it is, after exactly that many attempts |
| Retry.RunExhausts | aiojenkins/jenkins.py:52-64 | when every attempt is retryable the loop makes `total` attempts; it returns the last response, or raises a status-less JenkinsError when the last attempt failed in transport |
| Retry.RetryClientSession.constructor | aiojenkins/jenkins.py:33-40 | a validated session holds the defaulted policy and a fresh open ClientSession |
| Retry.RetryClientSession.Request | aiojenkins/jenkins.py:51-64 | the loop returns what the run function gives for the answers its attempts get; it appends exactly that run's sleeps and sends exactly that many requests to the server |
| Retry.RetryClientSession.Close | aiojenkins/jenkins.py:66-67 | closing closes the wrapped session |
| Executor.Configure | aiojenkins/jenkins.py:125-137 | the host loses all its trailing '/' and nothing else; auth is set iff user and password are both non-empty; a timeout is set iff one was given and is non-zero; verify and retry are kept as given |
| Executor.ResolveUrl | aiojenkins/jenkins.py:173-176 | a path starting with "http" is used verbatim; any other path is appended to the host |
| Executor.CrumbHeaders | aiojenkins/jenkins.py:167-169 | with a crumb, the crumb header is present with the token and overrides a caller header of the same name, and every other caller header is kept; without one, the headers are untouched |
| Executor.PreparedRequest | aiojenkins/jenkins.py:161-183 | configured auth and timeout fill in only what the caller left out; the crumb goes into the headers; params and data pass through; `ssl` is the verify flag; the URL is resolved against the host |
| Executor.Classify | aiojenkins/jenkins.py:187-210 | 404 raises JenkinsNotFoundError "Request error [404], text" with status 404; any other status ≥ 400 raises JenkinsError carrying that status; anything lower returns the response unchanged |
| Executor.AuthHintExactly | aiojenkins/jenkins.py:194-208 | the error message reports a probable authentication problem exactly for 401, 403 and 500 |
| Executor.NotFoundOnlyFor404 | aiojenkins/jenkins.py:187-192 | an executor answer is a not-found error iff the status is 404 |
| Executor.Conclude | aiojenkins/jenkins.py:172-210 | a ClientError becomes a status-less JenkinsError; other exceptions pass through; a response is classified; success iff a response with status < 400, which is then returned unchanged |
| Executor.Transmit | aiojenkins/jenkins.py:171-183 | a plain session sends the request once unless it is closed; a session whose retry options fail validation raises that JenkinsError and sends nothing |
| Executor.TimeoutHandling | aiojenkins/jenkins.py:178-185 | a timeout escapes a plain session as asyncio.TimeoutError but becomes a status-less JenkinsError through a one-attempt retry session |
| Executor.NoBareClientError | aiojenkins/jenkins.py:178-185 | whatever the session, a ClientError from the session call is never raised bare: it becomes a status-less JenkinsError |
| Crumbs.ProbeOutcome | aiojenkins/jenkins.py:212-220 | a 404 on the probe means "no crumb issuer" (Unsupported); any other probe error propagates; a good body yields `{crumbRequestField: crumb}`; a body without those fields raises |
| Crumbs.OrchestrateBounds | aiojenkins/jenkins.py:222-239 | one logical request makes one executor call per answer, between one and three of them, with at most one probe; the last call is the caller's request unless a probe failed, and then the crumb is unchanged |
| Crumbs.UnsupportedNeverProbes | aiojenkins/jenkins.py:236-239 | with the Unsupported crumb the request goes out once, and the state stays Unsupported |
| Crumbs.UnsetProbesOnce | aiojenkins/jenkins.py:229-239 | from Unset there is exactly one probe first. A 404 gives Unsupported; a good answer gives a Concrete crumb, which the request then carries; any other probe error is raised with the state left Unset |
| Crumbs.ConcreteRetriesOnceOnForbidden | aiojenkins/jenkins.py:229-239 | with a crumb, anything but a 403 is returned or raised at once. A 403 gives one probe, which still carries the old crumb, and one more try; that try's outcome is final, even a second 403 |
| Crumbs.UnsupportedIsTerminal | aiojenkins/jenkins.py:236-237 | once Unsupported, every later request leaves it Unsupported and never probes again |
| Crumbs.ProbesPerSequence | aiojenkins/jenkins.py:222-239 | over any series of requests there is at most one probe per request |
| Versions.Padded | aiojenkins/jenkins.py:285-287 | fewer than four fields are padded to four, keeping the originals as a prefix; longer lists are left as they are |
| Versions.PadFields | aiojenkins/jenkins.py:285-287 | the corrected padding loop computes exactly the padded fields |
| Versions.PaddingAsWrittenDiverges | aiojenkins/jenkins.py:286-287 | the loop as written never reaches four fields from more than four, however long it runs |
| Versions.FiveFieldHeaderHangs | aiojenkins/jenkins.py:285-287 | the header "2.1.2.3.4" makes the loop as written run forever |
| Versions.PaddingAgrees | aiojenkins/jenkins.py:286-287 | for four fields or fewer the corrected loop and the loop as written give the same fields |
| Versions.ToVersion | aiojenkins/jenkins.py:289 | a version is built iff there are exactly four decimal fields; otherwise the conversion raises |
| Versions.ParseVersion | aiojenkins/jenkins.py:281-283 | a missing or empty `X-Jenkins` header raises JenkinsError "Header `X-Jenkins` isn`t found in response" |
| Versions.ParseNumericFields | aiojenkins/jenkins.py:281-289 | a header of one to four decimal numbers parses to those numbers, with the missing ones 0 |
| Versions.ShortHeaderExample | aiojenkins/jenkins.py:273-289 | "2.358" parses to (2, 358, 0, 0) |
| Versions.FullHeaderExample | aiojenkins/jenkins.py:273-289 | "2.346.1.4" parses to (2, 346, 1, 4) |
| Paths.FolderAndJobName | aiojenkins/jenkins.py:242-251 | the job is the last '/'-separated piece and contains no '/'; the folder is one "job/<f>/" segment per earlier piece, in order |
| Paths.TopLevelJob | aiojenkins/jenkins.py:242-251 | there are no folders iff the name has no '/', and then the folder is "" and the job is the whole name |
| Paths.FoldersAndJobRebuildName | aiojenkins/jenkins.py:243-249 | the folders and the job joined with '/' give back the name |
| Paths.FolderPrefixLength | aiojenkins/jenkins.py:248-249 | the folder text is as long as the folder names together plus five characters ("job/" and "/") per folder |
| Paths.TokenUrl | aiojenkins/jenkins.py:354-356 | the token URL is the API-token descriptor path followed by the action |
| Json.Contains | aiojenkins/jenkins.py:298 | `key in v` is key membership for an object, element membership for a list, and substring for a string; other values raise |
| Json.KeyOf | aiojenkins/queue.py:22 | an item gives a key iff it is an object whose field is present and hashable; the key is the field's value, with a boolean filed as the integer it equals |
| Json.DictKeyIsPyEquals | aiojenkins/queue.py:22 | two values land on the same dict key exactly when Python's `==` finds them equal (True and 1, False and 0) |
| Json.BoolAndOneShareAKey | aiojenkins/queue.py:22 | items keyed by True and by 1 give one entry, holding the later item |
| Json.KeyByDefined | aiojenkins/queue.py:22 | the dict comprehension succeeds iff every item is an object whose field is present and hashable |
| Json.KeyByContents | aiojenkins/queue.py:22 | the map's keys are exactly the items' keys, and each key maps to the last item that carries it |
| Json.KeyBySize | aiojenkins/queue.py:22 | the map has at most as many entries as items, and exactly as many when the keys are distinct |
| Json.SingleItem | aiojenkins/queue.py:22 | one item gives a map with exactly that one entry |
| Client.Body | aiojenkins/jenkins.py:270-271 | the decoded body of a successful response; `_request`'s error propagates; an undecodable body raises |
| Client.Discard | aiojenkins/queue.py:53-57 | an endpoint returning None succeeds exactly when its request did, and propagates its error otherwise |
| Client.Readiness | aiojenkins/jenkins.py:291-302 | a JenkinsError from `get_status` means not ready (false); other exceptions propagate; otherwise ready iff the status object has a "mode" key |
| Client.ReadyOnlyWithMode | aiojenkins/jenkins.py:291-302 | whatever the executor answers, `is_ready` never raises a JenkinsError, and it is true only with a "mode" entry |
| Client.TokenPair | aiojenkins/jenkins.py:376-382 | the token pair is returned iff the body has status "ok" and its data carries tokenValue and tokenUuid, and it is those two values; a status other than "ok" raises JenkinsError "Non OK status returned: …"; a missing status, data or token field raises KeyError/TypeError (Malformed); a body error propagates |
| Client.Listing | aiojenkins/nodes.py:22-24 | the keyed listing succeeds iff the body has the listing, it is iterable and every element carries the key; it then equals the comprehension's map; otherwise the error is the body's or a KeyError/TypeError |
| Client.ListingContents | aiojenkins/queue.py:21-22 | for a listing whose elements all carry the key: the keys are exactly theirs, a repeated key keeps the last element, and the size is at most the count, equal when keys are distinct |
| Client.HeaderValue | aiojenkins/jenkins.py:281 | `headers.get(name)` on a case-insensitive multidict: None iff no header name matches ignoring ASCII case; otherwise the value of the first one that matches |
| Client.VersionHeaderIgnoresCase | aiojenkins/jenkins.py:281 | "x-jenkins" and "X-JENKINS" are read as the `X-Jenkins` header, and a longer name that starts the same is not |
| Client.StepExecs | aiojenkins/jenkins.py:167-169 | one executor call per step, each with that step's crumb and answer, in order |
| Client.Resent | aiojenkins/jenkins.py:167-169 | after a call with a crumb, caller headers hold the crumb entry and keep every other entry; without caller headers or a crumb the arguments are unchanged |
| Client.ResendCarriesFirstCrumb | aiojenkins/jenkins.py:167-169 | after a 403, the second attempt goes out with the headers the first left; when the re-probe finds no crumb issuer, the old crumb entry is still sent |
| Client.RequestedFrom | aiojenkins/jenkins.py:222-239 | the guarantees of `Jenkins.Request` make one `Requested` step of the client |
| Client.ServedGrows | aiojenkins/jenkins.py:178-183 | the server's log only grows: what it held before is a prefix of what it holds after |
| Client.RequestedBounds | aiojenkins/jenkins.py:222-239 | one `_request` appends one to three executor calls and only appends to the server's log; with the Unsupported crumb it makes exactly one call, the caller's, and stays Unsupported |
| Client.ClosedSessionRefuses | aiojenkins/jenkins.py:253-261 | after `close`, every request raises the closed-session error and reaches no server, with or without retry |
| Client.FirstChannel | aiojenkins/jenkins.py:146-155 | before any session exists, a request would fail iff retry is enabled and its options fail validation; otherwise a fresh open session is used |
| Client.Deliver | aiojenkins/jenkins.py:178-183 | the held session (plain or retrying) returns what the session model gives, and the server log grows by exactly the requests sent |
| Client.Jenkins.constructor | aiojenkins/jenkins.py:74-137 | a new client has the configured host, auth, timeout, verify and retry, no session, the crumb unset and empty logs |
| Client.Jenkins.GetSession | aiojenkins/jenkins.py:146-155 | a held session is returned as it is; otherwise one is created and kept, retrying iff retry options are given (validated here, raising and keeping none on failure), plain otherwise |
| Client.Jenkins.HttpRequest | aiojenkins/jenkins.py:157-210 | the prepared request goes through the session; the result is the concluded outcome; the crumb is unchanged; the server log grows by exactly the requests the session sent |
| Client.Jenkins.GetCrumb | aiojenkins/jenkins.py:212-220 | the probe GET /crumbIssuer/api/json goes through the executor; a crumb found is stored; the result is the probe's outcome |
| Client.Jenkins.ProbeAndSend | aiojenkins/jenkins.py:236-239 | probe, then send the request with the crumb the probe gave; the outcome and the calls made equal the pure re-probe step |
| Client.Jenkins.RequestWithoutCrumb | aiojenkins/jenkins.py:236-239 | without a crumb, probe first unless the server is known to issue none; this agrees with the state machine |
| Client.Jenkins.RequestWithCrumb | aiojenkins/jenkins.py:229-239 | with a crumb, send once; only a 403 leads to a re-probe and a second send; this agrees with the state machine |
| Client.Jenkins.Request | aiojenkins/jenkins.py:222-239 | `_request`'s result, its new crumb and its executor calls are the state machine applied to the executor's answers, and after a 403 the second attempt carries the caller's headers as the first attempt left them; the server saw exactly those calls; the call is appended to the history; together, one `Client.Requested` step |
| Client.Jenkins.Close | aiojenkins/jenkins.py:253-261 | the held session, plain or retrying, is closed and nothing else changes; without a session nothing happens |
| Client.Jenkins.GetStatus | aiojenkins/jenkins.py:263-271 | exactly one GET /api/json, and its decoded body; the request is one `Client.Requested` step, so the crumb, the executor log and the server's log after it are determined and the channel is unchanged |
| Client.Jenkins.GetVersion | aiojenkins/jenkins.py:273-289 | exactly one GET /; an error propagates; otherwise the `X-Jenkins` header is parsed as the version parser states; the request is one `Client.Requested` step, so the crumb, the executor log and the server's log after it are determined and the channel is unchanged |
| Client.Jenkins.IsReady | aiojenkins/jenkins.py:291-302 | exactly one GET /api/json, whose result is read as readiness; the request is one `Client.Requested` step, so the crumb, the executor log and the server's log after it are determined and the channel is unchanged |
| Client.Jenkins.GenerateToken | aiojenkins/jenkins.py:358-382 | exactly one POST to the token descriptor's generateNewToken with `newTokenName`; the result is the token pair check on its body; the request is one `Client.Requested` step, so the crumb, the executor log and the server's log after it are determined and the channel is unchanged |
| Nodes.NormalizeIdempotent | aiojenkins/nodes.py:14-19 | only "master" is renamed, to "(master)"; normalising is idempotent; two names collide only when equal or when they are "master" and "(master)" |
| Nodes.NodeMapKeys | aiojenkins/nodes.py:21-24 | the nodes map is keyed by every displayName and no other key, and a repeated name keeps the last node |
| Nodes.Existence | aiojenkins/nodes.py:35-39 | info obtained means the node exists; JenkinsNotFoundError means it does not; every other error propagates |
| Nodes.Defaulted | aiojenkins/nodes.py:45-48 | `type` is set to hudson.slaves.DumbSlave only when absent; `name` is always overwritten with the node name; every other entry is kept |
| Nodes.CreateParamsConsistent | aiojenkins/nodes.py:50-56 | the name and type query params agree with the name and type inside the JSON configuration sent |
| Nodes.EnableToggle | aiojenkins/nodes.py:62-68 | after reading the info, enable toggles exactly when `offline` is truthy, and raises when it is missing |
| Nodes.DisableToggle | aiojenkins/nodes.py:70-79 | after reading the info, disable toggles, with the offline message, exactly when `offline` is falsy, and raises when it is missing |
| Nodes.EnableDisableIdempotent | aiojenkins/nodes.py:62-79 | on a node whose info reflects its state, enable leaves it online and a second enable sends nothing; the same holds for disable with offline |
| Nodes.NodeConfig.constructor | aiojenkins/nodes.py:41 | the caller's configuration dict, holding the given entries |
| Nodes.Nodes.constructor | aiojenkins/nodes.py:11-12 | the group keeps its client |
| Nodes.Nodes.Get | aiojenkins/nodes.py:21-24 | exactly one GET /computer/api/json, and the nodes keyed by displayName; the request is one `Client.Requested` step, so the crumb, the executor log and the server's log after it are determined and the channel is unchanged |
| Nodes.Nodes.GetInfo | aiojenkins/nodes.py:26-29 | exactly one GET /computer/{normalised name}/api/json, and its body; the request is one `Client.Requested` step, so the crumb, the executor log and the server's log after it are determined and the channel is unchanged |
| Nodes.Nodes.IsExists | aiojenkins/nodes.py:31-39 | the empty name is false with no request made and the client state unchanged; otherwise one info request, one `Client.Requested` step, decides |
| Nodes.Nodes.Create | aiojenkins/nodes.py:41-56 | after listing the nodes: an existing name raises "Node `name` is already exists" and sends no POST, and a listing error propagates, both leaving the configuration untouched; otherwise the configuration is defaulted in place and POSTed to /computer/doCreateItem with name, type and json params; each request made is one `Client.Requested` step, the second starting where the first ended |
| Nodes.Nodes.CreateUnlisted | aiojenkins/nodes.py:42-56 | once the nodes are listed: a listing error propagates and a listed name raises "Node `name` is already exists", both sending nothing and changing nothing; otherwise the defaulted configuration is submitted as one `Client.Requested` step |
| Nodes.Nodes.Submit | aiojenkins/nodes.py:45-56 | the caller's configuration is defaulted in place, then POSTed with params matching it; the request is one `Client.Requested` step, so the crumb, the executor log and the server's log after it are determined and the channel is unchanged |
| Nodes.Nodes.Delete | aiojenkins/nodes.py:58-60 | exactly one POST /computer/{normalised name}/doDelete; the request is one `Client.Requested` step, so the crumb, the executor log and the server's log after it are determined and the channel is unchanged |
| Nodes.Nodes.SendToggle | aiojenkins/nodes.py:66-68 | the toggle decided on is sent as one `Client.Requested` step, and nothing is sent and the client state is unchanged when none is needed |
| Nodes.Nodes.Enable | aiojenkins/nodes.py:62-68 | one info request, then a toggleOffline POST exactly when the node is offline; each request made is one `Client.Requested` step, the second starting where the first ended |
| Nodes.Nodes.Disable | aiojenkins/nodes.py:70-79 | one info request, then a toggleOffline POST with `offlineMessage` (default "") exactly when the node is online; each request made is one `Client.Requested` step, the second starting where the first ended |
| Nodes.Nodes.UpdateOfflineReason | aiojenkins/nodes.py:81-85 | exactly one POST to changeOfflineCause with `offlineMessage`; the request is one `Client.Requested` step, so the crumb, the executor log and the server's log after it are determined and the channel is unchanged |
| Builds.FormatParameters | aiojenkins/builds.py:18-21 | one {name, value: str(v)} object per parameter, same count, same order |
| Builds.StartRequest | aiojenkins/builds.py:9-38 | POST /job/{name}/build always carries the delay as its only query param (default 0). There is no body without parameters. Otherwise the json field holds statusCode "303", redirectTo "." and the parameter entry: a single parameter as its object, several as their list |
| Builds.ParametersKept | aiojenkins/builds.py:18-21 | the posted list keeps every parameter in order, with distinct names and values rendered by str() |
| Builds.Build.constructor | aiojenkins/builds.py:6-7 | the group keeps its client |
| Builds.Build.Start | aiojenkins/builds.py:9-38 | exactly one request, the start request described above; the result is None or the request's error; the request is one `Client.Requested` step, so the crumb, the executor log and the server's log after it are determined and the channel is unchanged |
| Builds.Build.Stop | aiojenkins/builds.py:40-41 | exactly one POST /job/{name}/{id}/stop; the request is one `Client.Requested` step, so the crumb, the executor log and the server's log after it are determined and the channel is unchanged |
| Builds.Build.Delete | aiojenkins/builds.py:43-44 | exactly one POST /job/{name}/{id}/doDelete; the request is one `Client.Requested` step, so the crumb, the executor log and the server's log after it are determined and the channel is unchanged |
| Builds.Build.GetInfo | aiojenkins/builds.py:46-48 | exactly one GET /job/{name}/{id}/api/json, and its body; the request is one `Client.Requested` step, so the crumb, the executor log and the server's log after it are determined and the channel is unchanged |
| Queue.QueueMapContents | aiojenkins/queue.py:21-22 | the queue map's keys are exactly the items' ids, a duplicate id keeps the last item, and the size is at most the item count, equal when ids are distinct |
| Queue.SingleQueuedItem | aiojenkins/queue.py:21-22 | a one-item queue gives a one-entry map |
| Queue.Queue.constructor | aiojenkins/queue.py:6-7 | the group keeps its client |
| Queue.Queue.GetAll | aiojenkins/queue.py:9-22 | exactly one GET /queue/api/json, and the items keyed by id; the request is one `Client.Requested` step, so the crumb, the executor log and the server's log after it are determined and the channel is unchanged |
| Queue.Queue.GetInfo | aiojenkins/queue.py:24-40 | exactly one GET /queue/item/{id}/api/json, and its body; the request is one `Client.Requested` step, so the crumb, the executor log and the server's log after it are determined and the channel is unchanged |
| Queue.Queue.Cancel | aiojenkins/queue.py:42-57 | exactly one POST /queue/cancelItem with params {id}; returns None or the error; the request is one `Client.Requested` step, so the crumb, the executor log and the server's log after it are determined and the channel is unchanged |
| Plugins.PluginMapContents | aiojenkins/plugins.py:21-22 | every shortName is a key and no other is, and a duplicate shortName keeps the last record |
| Plugins.PluginUrl | aiojenkins/plugins.py:16-19 | the plugin path is relative, so it resolves to host + /pluginManager/api/json?depth={depth} |
| Plugins.Plugins.constructor | aiojenkins/plugins.py:6-7 | the group keeps its client |
| Plugins.Plugins.GetAll | aiojenkins/plugins.py:9-22 | exactly one GET with the depth query (default 2), and the plugins keyed by shortName; the request is one `Client.Requested` step, so the crumb, the executor log and the server's log after it are determined and the channel is unchanged |
| Views.ViewExists | aiojenkins/views.py:10-12 | membership of the exact name among the keys; an error getting the views propagates |
| Views.ExistsIffListed | aiojenkins/views.py:6-12 | with a readable status, a view exists iff some listed view carries exactly that name, and an absent view is false, not an error |
| Views.OnlyStatusErrorsPropagate | aiojenkins/views.py:6-12 | is_exists raises only the status request's error, or a KeyError/TypeError on a status without a usable views list |
| Views.Views.constructor | aiojenkins/views.py:3-4 | the group keeps its client |
| Views.Views.GetAll | aiojenkins/views.py:6-8 | exactly one GET /api/json (through get_status), and the views keyed by name; the request is one `Client.Requested` step, so the crumb, the executor log and the server's log after it are determined and the channel is unchanged |
| Views.Views.IsExists | aiojenkins/views.py:10-12 | exactly one GET /api/json, and membership of the name; the request is one `Client.Requested` step, so the crumb, the executor log and the server's log after it are determined and the channel is unchanged |

## Left out

- The HTTP transport, TLS and response reading (aiohttp) are an oracle. `ssl=verify` is recorded in the request; certificates and encodings are not modelled.
- Timeouts are a value in the request, not a clock. `asyncio.sleep` is recorded as a ghost log of doubled durations; no time passes.
- Retry.Backoff: the sleeps are kept doubled (`factor * 2^i`), because the source's first sleep, `factor * 2^-1`, is not an integer.
- `wait_until_ready` is left out: it polls without bound.
- Concurrency is left out: tasks sharing one client race on `crumb` and `_session`. Each call is modelled as running alone.
- `jobs.py`, `utils.py`, `quiet_down`, `cancel_quiet_down`, `restart`, `safe_restart`, `revoke_token` and `run_groovy_script` are left out. Each is a fixed path handed to `_request`, which is modelled, or XML built by library serialisation that is not part of this model.
- The async context manager (`__aenter__`/`__aexit__`) is left out; it only calls `close`.
- Client.Jenkins.constructor: the endpoint groups (`builds`, `jobs`, `nodes`, `plugins`, `queue`, `views`) are not created by the client. Each group class is built separately from a client.
- Client.TokenPair: the JenkinsError message is the fixed prefix "Non OK status returned: " without the `str(content)` rendering of the body.
- Executor.Conclude: the response text of an error status is the oracle's `text`; the `from e` exception chaining is not modelled.
- Executor.PreparedRequest: a caller keyword passed explicitly as None counts as absent here. The source treats any given keyword, None included, as present.
- Builds.FormatParameters: parameter values are strings, integers, booleans or None; `str()` of floats, lists or dicts is not modelled.
- Nodes.Nodes.Create: the JSON text of the configuration is the document itself (`json.dumps` is not rendered). Key order is not kept.
- Versions.ToVersion: a field counts as a number only when it is plain decimal digits. Python's `int()` also accepts a sign, surrounding whitespace and digit-separating underscores.
- Crumbs.ProbeOutcome: a crumb body whose fields are present but not strings is treated as malformed. The source would put those values into the header dict as they are.
- Json.Elements: iterating a non-empty object or string yields strings, which cannot be indexed by a field name. The model reports such a listing as malformed instead of naming which step raises.
- Client.Jenkins.Request: the caller's headers dict is a value here. The crumb entry the source leaves in it after the call is not visible to the caller; only its effect on the second attempt after a 403 is modelled.
- Client.Jenkins.GetVersion: header names are folded in ASCII only, and response headers are a list of pairs, not aiohttp's multidict object.
- Json.KeyBy: a boolean key is filed as the integer it equals. Python keeps the first key object it was given, so `{True: a, 1: b}` prints as `{True: b}` where the model holds `{1: b}`. Membership and size agree. Floats, which Python also merges with equal integers, are not part of the JSON model.
- Executor.NoBareClientError: reading the body of an error response (`await response.text()`) can raise aiohttp's ClientPayloadError outside the `try`. Reading bodies is part of the oracle, so that error is not modelled.
- Retry.Validate: the retry options are typed here: `total` and `factor` are integers and `statuses` is a list of status codes. With a value of another type the source raises TypeError, at `total <= 0`, at `range(total)`, in the backoff arithmetic or at the `in statuses` test. The model requires well-typed options (`WellTyped`) for `Validate`, `Retry.RetryClientSession.constructor` and `Client.Jenkins.constructor`.
- Http.ClientSession.Request: a closed aiohttp session raises a RuntimeError, modelled as the `SessionClosed` exception.

## Findings

| source | as written | input that shows it | evidently intended | confidence | as-written member | corrected member |
|---|---|---|---|---|---|---|
| aiojenkins/jenkins.py:286-287 | `get_version` pads the split header with `while len(versions) != 4`, which never stops once there are more than four fields | an `X-Jenkins` header of "2.1.2.3.4" | pad only while there are fewer than four fields, so longer headers are rejected instead of hanging | high, not executed | Versions.FiveFieldHeaderHangs | Versions.PadFields |
