/**
 * `Build`: starting a job's build, with its parameters shaped into the
 * form Jenkins expects, and stopping, deleting and describing one build.
 */
module Builds {
  import opened Wrappers
  import opened Text
  import opened Dicts
  import opened Json
  import opened Exceptions
  import opened Http
  import opened Client

  /** A parameter value as a caller passes it; `str()` renders it. */
  datatype Scalar = Text(s: string) | Number(i: int) | Flag(b: bool) | Nothing

  /** Python's `str(v)`. */
  function PyStr(v: Scalar): string {
    match v
    case Text(s) => s
    case Number(i) => IntToString(i)
    case Flag(b) => if b then "True" else "False"
    case Nothing => "None"
  }

  /** `{'name': k, 'value': str(v)}`. */
  function Formatted(k: string, v: Scalar): Json {
    Obj(map["name" := Str(k), "value" := Str(PyStr(v))])
  }

  /** The list comprehension over `parameters.items()`, in the dictionary's order. */
  function FormatParameters(parameters: seq<(string, Scalar)>): (r: seq<Json>)
    ensures |r| == |parameters|
    ensures forall i :: 0 <= i < |r| ==> r[i] == Formatted(parameters[i].0, parameters[i].1)
  {
    if |parameters| == 0 then []
    else [Formatted(parameters[0].0, parameters[0].1)] + FormatParameters(parameters[1..])
  }

  /** The `parameter` entry: a lone parameter as itself, several (or none) as a list. */
  function ParameterEntry(formatted: seq<Json>): Json {
    if |formatted| == 1 then formatted[0] else Arr(formatted)
  }

  /** The JSON document `start` posts for a parameterised build. */
  function StartDocument(parameters: Dict<string, Scalar>): Json {
    Obj(map["parameter" := ParameterEntry(FormatParameters(parameters)),
            "statusCode" := Str("303"),
            "redirectTo" := Str(".")])
  }

  /** The request body of `start`: None without parameters, else the form field `json`. */
  function StartData(parameters: Option<Dict<string, Scalar>>): Option<map<string, Param>> {
    if parameters.None? || |parameters.value| == 0 then None
    else Some(map["json" := Dumped(StartDocument(parameters.value))])
  }

  function BuildPath(name: string): string {
    "/job/" + name + "/build"
  }

  /** What `start` hands to `_request`: POST to the job's build URL, with the delay always given. */
  function StartCall(name: string, parameters: Option<Dict<string, Scalar>>, delay: int): Call {
    Call("POST", BuildPath(name),
         NoOptions.(params := Some(map["delay" := Value(Int(delay))]), data := StartData(parameters)))
  }

  /** The posted document, when there is one: its parameter entry, statusCode "303" and redirectTo ".". */
  predicate Posts(data: Option<map<string, Param>>, entry: Json) {
    && data.Some? && data.value.Keys == {"json"} && data.value["json"].Dumped?
    && var doc := data.value["json"].doc;
    && doc.Obj? && doc.fields.Keys == {"parameter", "statusCode", "redirectTo"}
    && doc.fields["statusCode"] == Str("303") && doc.fields["redirectTo"] == Str(".")
    && doc.fields["parameter"] == entry
  }

  /**
   * `start`'s request: POST /job/{name}/build with the delay as the only
   * query parameter; no body without parameters; with one parameter the
   * entry is that parameter's object, with several it is their list in order.
   */
  lemma StartRequest(name: string, parameters: Option<Dict<string, Scalar>>, delay: int)
    ensures var c := StartCall(name, parameters, delay);
      && c.verb == "POST" && c.path == "/job/" + name + "/build"
      && c.options.params == Some(map["delay" := Value(Int(delay))])
      && c.options.headers.None? && c.options.auth.None? && c.options.timeout.None?
      && (c.options.data.None? <==> parameters.None? || |parameters.value| == 0)
      && (parameters.Some? && |parameters.value| == 1 ==>
            Posts(c.options.data, Formatted(parameters.value[0].0, parameters.value[0].1)))
      && (parameters.Some? && |parameters.value| > 1 ==>
            Posts(c.options.data, Arr(FormatParameters(parameters.value))))
  {
  }

  /**
   * The posted list keeps every parameter, in order, as a distinct
   * name with its value rendered by `str()`.
   */
  lemma ParametersKept(parameters: Dict<string, Scalar>)
    ensures var items := FormatParameters(parameters);
      && |items| == |parameters|
      && (forall i :: 0 <= i < |items| ==>
            items[i].Obj? && items[i].fields["name"] == Str(parameters[i].0)
            && items[i].fields["value"] == Str(PyStr(parameters[i].1)))
      && (forall i, j :: 0 <= i < j < |items| ==> items[i].fields["name"] != items[j].fields["name"])
  {
    var items := FormatParameters(parameters);
    forall i, j | 0 <= i < j < |items| ensures items[i].fields["name"] != items[j].fields["name"] {
      assert parameters[i].0 != parameters[j].0;
    }
  }

  /** `/job/{name}/{build_id}/{action}`. */
  function BuildItemPath(name: string, buildId: int, action: string): string {
    "/job/" + name + "/" + IntToString(buildId) + "/" + action
  }

  function StopCall(name: string, buildId: int): Call {
    Call("POST", BuildItemPath(name, buildId, "stop"), NoOptions)
  }

  function DeleteCall(name: string, buildId: int): Call {
    Call("POST", BuildItemPath(name, buildId, "doDelete"), NoOptions)
  }

  function InfoCall(name: string, buildId: int): Call {
    Call("GET", BuildItemPath(name, buildId, "api/json"), NoOptions)
  }

  class Build {
    const jenkins: Jenkins

    constructor (jenkins: Jenkins)
      ensures this.jenkins == jenkins
    {
      this.jenkins := jenkins;
    }

    /** `start`: enqueues a build, after `delay` seconds, with the given parameters. */
    method Start(name: string, parameters: Option<Dict<string, Scalar>> := None, delay: int := 0)
      returns (r: Result<(), Exception>, ghost answer: Result<Response, Exception>)
      requires jenkins.Valid()
      modifies jenkins.Repr
      ensures jenkins.Valid() && fresh(jenkins.Repr - old(jenkins.Repr))
      ensures jenkins.history == old(jenkins.history) + [Made(StartCall(name, parameters, delay), answer)]
      ensures jenkins.channel == old(jenkins.channel)
      ensures Requested(jenkins.config, jenkins.channel, jenkins.server.reply, old(jenkins.State()), StartCall(name, parameters, delay), answer, jenkins.State())
      ensures r == Discard(answer)
    {
      var data: Option<map<string, Param>> := None;
      if parameters.Some? && |parameters.value| > 0 {
        var formatted := FormatParameters(parameters.value);
        var entry := if |formatted| == 1 then formatted[0] else Arr(formatted);
        data := Some(map["json" := Dumped(Obj(map["parameter" := entry, "statusCode" := Str("303"), "redirectTo" := Str(".")]))]);
      }
      ghost var answers, calls;
      var response;
      response, answers, calls := jenkins.Request("POST", "/job/" + name + "/build",
        NoOptions.(params := Some(map["delay" := Value(Int(delay))]), data := data));
      answer := response;
      r := Discard(response);
    }

    /** `stop`: aborts the build. */
    method Stop(name: string, buildId: int) returns (r: Result<(), Exception>, ghost answer: Result<Response, Exception>)
      requires jenkins.Valid()
      modifies jenkins.Repr
      ensures jenkins.Valid() && fresh(jenkins.Repr - old(jenkins.Repr))
      ensures jenkins.history == old(jenkins.history) + [Made(StopCall(name, buildId), answer)]
      ensures jenkins.channel == old(jenkins.channel)
      ensures Requested(jenkins.config, jenkins.channel, jenkins.server.reply, old(jenkins.State()), StopCall(name, buildId), answer, jenkins.State())
      ensures r == Discard(answer)
    {
      ghost var answers, calls;
      var response;
      response, answers, calls := jenkins.Request("POST", BuildItemPath(name, buildId, "stop"), NoOptions);
      answer := response;
      r := Discard(response);
    }

    /** `delete`: removes the build. */
    method Delete(name: string, buildId: int) returns (r: Result<(), Exception>, ghost answer: Result<Response, Exception>)
      requires jenkins.Valid()
      modifies jenkins.Repr
      ensures jenkins.Valid() && fresh(jenkins.Repr - old(jenkins.Repr))
      ensures jenkins.history == old(jenkins.history) + [Made(DeleteCall(name, buildId), answer)]
      ensures jenkins.channel == old(jenkins.channel)
      ensures Requested(jenkins.config, jenkins.channel, jenkins.server.reply, old(jenkins.State()), DeleteCall(name, buildId), answer, jenkins.State())
      ensures r == Discard(answer)
    {
      ghost var answers, calls;
      var response;
      response, answers, calls := jenkins.Request("POST", BuildItemPath(name, buildId, "doDelete"), NoOptions);
      answer := response;
      r := Discard(response);
    }

    /** `get_info`: the build's description. */
    method GetInfo(name: string, buildId: int) returns (r: Result<Json, Exception>, ghost answer: Result<Response, Exception>)
      requires jenkins.Valid()
      modifies jenkins.Repr
      ensures jenkins.Valid() && fresh(jenkins.Repr - old(jenkins.Repr))
      ensures jenkins.history == old(jenkins.history) + [Made(InfoCall(name, buildId), answer)]
      ensures jenkins.channel == old(jenkins.channel)
      ensures Requested(jenkins.config, jenkins.channel, jenkins.server.reply, old(jenkins.State()), InfoCall(name, buildId), answer, jenkins.State())
      ensures r == Body(answer)
    {
      ghost var answers, calls;
      var response;
      response, answers, calls := jenkins.Request("GET", BuildItemPath(name, buildId, "api/json"), NoOptions);
      answer := response;
      r := Body(response);
    }
  }
}
