/**
 * The HTTP layer the library drives, with the server replaced by an oracle:
 * request descriptors, responses, and aiohttp's ClientSession bound to that
 * oracle.
 */
module Http {
  import opened Wrappers
  import opened Json
  import opened Exceptions

  datatype Credentials = BasicAuth(login: string, password: string)

  /** A query parameter or form field: a value passed as it is, or the text `json.dumps(doc)`. */
  datatype Param = Value(v: Json) | Dumped(doc: Json)

  /**
   * The keyword arguments of a request (`params`, `data`, `headers`, `auth`,
   * `timeout`); None means the keyword was not given.
   */
  datatype Options = Options(
    params: Option<map<string, Param>>,
    data: Option<map<string, Param>>,
    headers: Option<map<string, string>>,
    auth: Option<Credentials>,
    timeout: Option<real>)

  const NoOptions := Options(None, None, None, None, None)

  function WithParams(params: map<string, Param>): Options {
    NoOptions.(params := Some(params))
  }

  /** What `session.request(method, url, ssl=verify, **kwargs)` is handed. */
  datatype Request = Request(verb: string, url: string, ssl: bool, options: Options)

  /**
   * A response: status, headers (name and value, in the order received;
   * names are matched without regard to case), body text, and the decoded
   * body (None: `json()` raises).
   */
  datatype Response = Response(status: int, headers: seq<(string, string)>, text: string, json: Option<Json>)

  /** What the server does with one request. */
  datatype Answer = Responds(response: Response) | ConnectionFails | TimesOut

  /** How an answer reaches the caller of `session.request`. */
  function Delivered(a: Answer): (r: Result<Response, Exception>)
    ensures r.Ok? <==> a.Responds?
    ensures r.Err? ==> r.error.ClientError? || r.error.TimeoutError?
  {
    match a
    case Responds(resp) => Ok(resp)
    case ConnectionFails => Err(ClientError)
    case TimesOut => Err(TimeoutError)
  }

  /** The outcome of the request sent as the server's `k`-th by a session that is `closed` or open. */
  function SessionOutcome(closed: bool, reply: (nat, Request) -> Answer, k: nat, req: Request): Result<Response, Exception> {
    if closed then Err(SessionClosed) else Delivered(reply(k, req))
  }

  function Repeat<T>(x: T, n: nat): (s: seq<T>)
    ensures |s| == n && forall i :: 0 <= i < n ==> s[i] == x
  {
    if n == 0 then [] else Repeat(x, n - 1) + [x]
  }

  /**
   * The remote server as an oracle: the answer to a request depends on the
   * request and on how many requests came before it. `sent` records them.
   */
  class Server {
    const reply: (nat, Request) -> Answer
    var sent: seq<Request>

    constructor (reply: (nat, Request) -> Answer)
      ensures this.reply == reply && sent == []
    {
      this.reply := reply;
      sent := [];
    }

    method Send(req: Request) returns (a: Answer)
      modifies this
      ensures sent == old(sent) + [req]
      ensures a == reply(|old(sent)|, req)
    {
      a := reply(|sent|, req);
      sent := sent + [req];
    }
  }

  /** aiohttp's ClientSession: forwards requests to the server until it is closed. */
  class ClientSession {
    const server: Server
    var closed: bool

    constructor (server: Server)
      ensures this.server == server && !closed
    {
      this.server := server;
      closed := false;
    }

    method Request(req: Request) returns (r: Result<Response, Exception>)
      modifies server
      ensures r == SessionOutcome(closed, server.reply, |old(server.sent)|, req)
      ensures server.sent == old(server.sent) + (if closed then [] else [req])
    {
      if closed {
        r := Err(SessionClosed);
      } else {
        var a := server.Send(req);
        r := Delivered(a);
      }
    }

    method Close()
      modifies this
      ensures closed
    {
      closed := true;
    }
  }
}
