/**
 * `Nodes`: the agents ("computers") of a Jenkins server, addressed by
 * name, where the built-in node `master` is written `(master)` in paths.
 */
module Nodes {
  import opened Wrappers
  import opened Json
  import opened Exceptions
  import opened Http
  import opened Client

  /** `_normalize_name`: the built-in node is `(master)` in request paths. */
  function NormalizeName(name: string): string {
    if name == "master" then "(master)" else name
  }

  /**
   * Normalising twice changes nothing more; only `master` is renamed, to
   * `(master)`, so two names meet only when equal or when they are those two.
   */
  lemma NormalizeIdempotent(name: string, other: string)
    ensures NormalizeName(NormalizeName(name)) == NormalizeName(name)
    ensures NormalizeName(name) != name <==> name == "master"
    ensures name == "master" ==> NormalizeName(name) == "(master)"
    ensures NormalizeName(name) == NormalizeName(other) <==>
              name == other || {name, other} == {"master", "(master)"}
  {
  }

  const ListPath := "/computer/api/json"
  const CreatePath := "/computer/doCreateItem"

  /** `/computer/{name}/{action}`, with the name normalised. */
  function NodePath(name: string, action: string): string {
    "/computer/" + NormalizeName(name) + "/" + action
  }

  function InfoPath(name: string): string {
    NodePath(name, "api/json")
  }

  /** `get`: the nodes keyed by their `displayName`. */
  function NodeMap(body: Result<Json, Exception>): Result<map<Json, Json>, Exception> {
    Listing(body, "computer", "displayName")
  }

  /**
   * The nodes of a listing whose entries all carry a `displayName`: every
   * name is a key, no other key is, and a repeated name keeps the last entry.
   */
  lemma NodeMapKeys(doc: Json)
    requires Field(doc, "computer").Some? && Field(doc, "computer").value.Arr?
    requires AllKeyed(Field(doc, "computer").value.items, "displayName")
    ensures var items := Field(doc, "computer").value.items;
      var r := NodeMap(Ok(doc));
      && r.Ok? && r.value.Keys == KeysOf(items, "displayName")
      && forall i :: 0 <= i < |items| && LastWithKey(items, "displayName", i) ==>
           r.value[KeyOf(items[i], "displayName").value] == items[i]
  {
    ListingContents(doc, "computer", "displayName");
  }

  /** `is_exists` given what `get_info` gave: found, or not found (404); any other error propagates. */
  function Existence(info: Result<Json, Exception>): (r: Result<bool, Exception>)
    ensures r == Ok(true) <==> info.Ok?
    ensures r == Ok(false) <==> info.Err? && IsNotFound(info.error)
    ensures r.Err? ==> info.Err? && r.error == info.error && !IsNotFound(info.error)
  {
    match info
    case Ok(_) => Ok(true)
    case Err(e) => if IsNotFound(e) then Ok(false) else Err(e)
  }

  const DefaultType := "hudson.slaves.DumbSlave"

  function DuplicateMessage(name: string): string {
    "Node `" + name + "` is already exists"
  }

  /** The caller's configuration after `create`: a default `type` if none, and `name` always set. */
  function Defaulted(fields: map<string, Json>, name: string): (m: map<string, Json>)
    ensures m.Keys == fields.Keys + {"type", "name"}
    ensures m["name"] == Str(name)
    ensures "type" in fields ==> m["type"] == fields["type"]
    ensures "type" !in fields ==> m["type"] == Str(DefaultType)
    ensures forall k :: k in fields && k != "type" && k != "name" ==> m[k] == fields[k]
  {
    var typed := if "type" in fields then fields else fields["type" := Str(DefaultType)];
    typed["name" := Str(name)]
  }

  /** The query of the create request: name, type and the whole configuration as JSON text. */
  function CreateParams(name: string, fields: map<string, Json>): map<string, Param>
    requires "type" in fields
  {
    map["name" := Value(Str(name)), "type" := Value(fields["type"]), "json" := Dumped(Obj(fields))]
  }

  /** The params sent agree with the configuration sent: same name, same type. */
  lemma CreateParamsConsistent(name: string, fields: map<string, Json>)
    ensures var config := Defaulted(fields, name);
      var params := CreateParams(name, config);
      && params["json"].doc.fields["name"] == params["name"].v == Str(name)
      && params["json"].doc.fields["type"] == params["type"].v
      && ("type" !in fields ==> params["type"].v == Str(DefaultType))
  {
  }

  function OfflineOptions(message: string): Options {
    WithParams(map["offlineMessage" := Value(Str(message))])
  }

  /**
   * What `enable` does after `get_info`: toggle the node when its
   * `offline` entry is truthy, nothing otherwise; a missing entry raises.
   */
  function EnableToggle(name: string, info: Result<Json, Exception>): (r: Result<Option<Call>, Exception>)
    ensures info.Err? ==> r == Err(info.error)
    ensures info.Ok? && Field(info.value, "offline").None? ==> r == Err(Malformed)
    ensures r.Ok? && r.value.Some? <==> info.Ok? && Field(info.value, "offline").Some? && Truthy(Field(info.value, "offline").value)
    ensures r.Ok? && r.value.Some? ==> r.value.value == Call("POST", NodePath(name, "toggleOffline"), NoOptions)
  {
    match info
    case Err(e) => Err(e)
    case Ok(doc) =>
      match Field(doc, "offline")
      case None => Err(Malformed)
      case Some(offline) =>
        if Truthy(offline) then Ok(Some(Call("POST", NodePath(name, "toggleOffline"), NoOptions))) else Ok(None)
  }

  /** What `disable` does after `get_info`: toggle, with the message, only a node that is online. */
  function DisableToggle(name: string, message: string, info: Result<Json, Exception>): (r: Result<Option<Call>, Exception>)
    ensures info.Err? ==> r == Err(info.error)
    ensures info.Ok? && Field(info.value, "offline").None? ==> r == Err(Malformed)
    ensures r.Ok? && r.value.Some? <==> info.Ok? && Field(info.value, "offline").Some? && !Truthy(Field(info.value, "offline").value)
    ensures r.Ok? && r.value.Some? ==> r.value.value == Call("POST", NodePath(name, "toggleOffline"), OfflineOptions(message))
  {
    match info
    case Err(e) => Err(e)
    case Ok(doc) =>
      match Field(doc, "offline")
      case None => Err(Malformed)
      case Some(offline) =>
        if Truthy(offline) then Ok(None) else Ok(Some(Call("POST", NodePath(name, "toggleOffline"), OfflineOptions(message))))
  }

  /** The exchanges of an operation that reads first and then may send one more request. */
  function Followed(first: Exchange, next: Result<Option<Call>, Exception>, answers: seq<Result<Response, Exception>>): seq<Exchange>
    requires |answers| >= 1
  {
    if next.Ok? && next.value.Some? && |answers| == 2
    then [first, Made(next.value.value, answers[1])]
    else [first]
  }

  /** What the operation returns: the read's error, nothing when no toggle is needed, or the toggle's outcome. */
  function Outcome(next: Result<Option<Call>, Exception>, answers: seq<Result<Response, Exception>>): Result<(), Exception> {
    match next
    case Err(e) => Err(e)
    case Ok(None) => Ok(())
    case Ok(Some(_)) => if |answers| == 2 then Discard(answers[1]) else Ok(())
  }

  /** The info the server reports for a node that is offline or not. */
  function InfoOf(offline: bool): Json {
    Obj(map["offline" := Bool(offline)])
  }

  /** The node after a toggle request (if any) went through. */
  function Toggled(offline: bool, t: Option<Call>): bool {
    if t.Some? then !offline else offline
  }

  /**
   * On a node whose info reflects its state, `enable` leaves it online
   * whatever it was, and a second `enable` sends nothing; likewise
   * `disable` leaves it offline and a second one sends nothing.
   */
  lemma EnableDisableIdempotent(name: string, message: string, offline: bool)
    ensures var once := Toggled(offline, EnableToggle(name, Ok(InfoOf(offline))).value);
      !once && EnableToggle(name, Ok(InfoOf(once))) == Ok(None)
    ensures var once := Toggled(offline, DisableToggle(name, message, Ok(InfoOf(offline))).value);
      once && DisableToggle(name, message, Ok(InfoOf(once))) == Ok(None)
  {
    assert Field(InfoOf(offline), "offline") == Some(Bool(offline));
    assert Field(InfoOf(!offline), "offline") == Some(Bool(!offline));
  }

  /** The caller's configuration dict, which `create` fills in place. */
  class NodeConfig {
    var fields: map<string, Json>

    constructor (fields: map<string, Json>)
      ensures this.fields == fields
    {
      this.fields := fields;
    }
  }

  class Nodes {
    const jenkins: Jenkins

    constructor (jenkins: Jenkins)
      ensures this.jenkins == jenkins
    {
      this.jenkins := jenkins;
    }

    /** `get`: all nodes, keyed by display name. */
    method Get() returns (r: Result<map<Json, Json>, Exception>, ghost answer: Result<Response, Exception>)
      requires jenkins.Valid()
      modifies jenkins.Repr
      ensures jenkins.Valid() && fresh(jenkins.Repr - old(jenkins.Repr))
      ensures jenkins.history == old(jenkins.history) + [Exchange("GET", ListPath, NoOptions, answer)]
      ensures jenkins.channel == old(jenkins.channel)
      ensures Requested(jenkins.config, jenkins.channel, jenkins.server.reply, old(jenkins.State()), Call("GET", ListPath, NoOptions), answer, jenkins.State())
      ensures r == NodeMap(Body(answer))
    {
      ghost var answers, calls;
      var response;
      response, answers, calls := jenkins.Request("GET", ListPath, NoOptions);
      answer := response;
      r := NodeMap(Body(response));
    }

    /** `get_info`: the node's description, under its normalised name. */
    method GetInfo(name: string) returns (r: Result<Json, Exception>, ghost answer: Result<Response, Exception>)
      requires jenkins.Valid()
      modifies jenkins.Repr
      ensures jenkins.Valid() && fresh(jenkins.Repr - old(jenkins.Repr))
      ensures jenkins.history == old(jenkins.history) + [Exchange("GET", InfoPath(name), NoOptions, answer)]
      ensures jenkins.channel == old(jenkins.channel)
      ensures Requested(jenkins.config, jenkins.channel, jenkins.server.reply, old(jenkins.State()), Call("GET", InfoPath(name), NoOptions), answer, jenkins.State())
      ensures r == Body(answer)
    {
      ghost var answers, calls;
      var response;
      response, answers, calls := jenkins.Request("GET", InfoPath(name), NoOptions);
      answer := response;
      r := Body(response);
    }

    /** `is_exists`: the empty name exists nowhere and is not asked about; otherwise `get_info` decides. */
    method IsExists(name: string) returns (r: Result<bool, Exception>, ghost answers: seq<Result<Response, Exception>>)
      requires jenkins.Valid()
      modifies jenkins.Repr
      ensures jenkins.Valid() && fresh(jenkins.Repr - old(jenkins.Repr))
      ensures name == "" ==> r == Ok(false) && answers == [] && jenkins.history == old(jenkins.history)
      ensures name != "" ==> (
        && |answers| == 1 && r == Existence(Body(answers[0]))
        && jenkins.history == old(jenkins.history) + [Exchange("GET", InfoPath(name), NoOptions, answers[0])])
      ensures jenkins.channel == old(jenkins.channel)
      ensures name == "" ==> jenkins.State() == old(jenkins.State())
      ensures name != "" ==>
        |answers| == 1 && Requested(jenkins.config, jenkins.channel, jenkins.server.reply, old(jenkins.State()), Call("GET", InfoPath(name), NoOptions), answers[0], jenkins.State())
    {
      if name == "" {
        r, answers := Ok(false), [];
        return;
      }
      var info;
      ghost var answer;
      info, answer := GetInfo(name);
      answers := [answer];
      r := Existence(info);
    }

    /**
     * `create`: refuses a name `get` already lists; otherwise fills in the
     * caller's configuration (default type, the name) and posts it.
     */
    method Create(name: string, config: NodeConfig)
      returns (r: Result<(), Exception>, ghost answers: seq<Result<Response, Exception>>, ghost mid: ClientState)
      requires jenkins.Valid() && config !in jenkins.Repr
      modifies jenkins.Repr, config
      ensures jenkins.Valid() && fresh(jenkins.Repr - old(jenkins.Repr))
      ensures 1 <= |answers| <= 2
      ensures var nodes := NodeMap(Body(answers[0]));
        var proceeds := nodes.Ok? && Str(name) !in nodes.value;
        && (proceeds <==> |answers| == 2)
        && (nodes.Err? ==> r == Err(nodes.error))
        && (nodes.Ok? && Str(name) in nodes.value ==> r == Err(Jenkins(NewJenkinsError(Some(DuplicateMessage(name))))))
        && (!proceeds ==> (
              && config.fields == old(config.fields)
              && jenkins.history == old(jenkins.history) + [Exchange("GET", ListPath, NoOptions, answers[0])]))
        && (proceeds ==> (
              && config.fields == Defaulted(old(config.fields), name) && r == Discard(answers[1])
              && jenkins.history == old(jenkins.history) + [Exchange("GET", ListPath, NoOptions, answers[0]),
                   Exchange("POST", CreatePath, WithParams(CreateParams(name, config.fields)), answers[1])]))
      ensures jenkins.channel == old(jenkins.channel)
      ensures Requested(jenkins.config, jenkins.channel, jenkins.server.reply, old(jenkins.State()), Call("GET", ListPath, NoOptions), answers[0], mid)
      ensures |answers| == 1 ==> jenkins.State() == mid
      ensures |answers| == 2 ==>
        Requested(jenkins.config, jenkins.channel, jenkins.server.reply, mid, Call("POST", CreatePath, WithParams(CreateParams(name, config.fields))), answers[1], jenkins.State())
    {
      var nodes;
      ghost var listed, more;
      nodes, listed := Get();
      mid := jenkins.State();
      r, more := CreateUnlisted(name, config, nodes);
      answers := [listed] + more;
    }

    /** The rest of `create` once the nodes are listed: refuse a listed name, otherwise submit. */
    method CreateUnlisted(name: string, config: NodeConfig, nodes: Result<map<Json, Json>, Exception>)
      returns (r: Result<(), Exception>, ghost answers: seq<Result<Response, Exception>>)
      requires jenkins.Valid() && config !in jenkins.Repr
      modifies jenkins.Repr, config
      ensures jenkins.Valid() && fresh(jenkins.Repr - old(jenkins.Repr))
      ensures jenkins.channel == old(jenkins.channel)
      ensures var proceeds := nodes.Ok? && Str(name) !in nodes.value;
        && |answers| == (if proceeds then 1 else 0)
        && (nodes.Err? ==> r == Err(nodes.error))
        && (nodes.Ok? && Str(name) in nodes.value ==> r == Err(Jenkins(NewJenkinsError(Some(DuplicateMessage(name))))))
        && (!proceeds ==> config.fields == old(config.fields) && jenkins.State() == old(jenkins.State()))
        && (proceeds ==> (
              && config.fields == Defaulted(old(config.fields), name) && r == Discard(answers[0])
              && jenkins.history == old(jenkins.history) + [Exchange("POST", CreatePath, WithParams(CreateParams(name, config.fields)), answers[0])]
              && Requested(jenkins.config, jenkins.channel, jenkins.server.reply, old(jenkins.State()), Call("POST", CreatePath, WithParams(CreateParams(name, config.fields))), answers[0], jenkins.State())))
    {
      if nodes.Err? {
        r, answers := Err(nodes.error), [];
      } else if Str(name) in nodes.value {
        r, answers := Err(Jenkins(NewJenkinsError(Some(DuplicateMessage(name))))), [];
      } else {
        var response := Submit(name, config);
        answers := [response];
        r := Discard(response);
      }
    }

    /** The second half of `create`: fill in the configuration, then post it. */
    method Submit(name: string, config: NodeConfig) returns (response: Result<Response, Exception>)
      requires jenkins.Valid() && config !in jenkins.Repr
      modifies jenkins.Repr, config
      ensures jenkins.Valid() && fresh(jenkins.Repr - old(jenkins.Repr))
      ensures config.fields == Defaulted(old(config.fields), name)
      ensures jenkins.history == old(jenkins.history) + [Exchange("POST", CreatePath, WithParams(CreateParams(name, config.fields)), response)]
      ensures jenkins.channel == old(jenkins.channel)
      ensures Requested(jenkins.config, jenkins.channel, jenkins.server.reply, old(jenkins.State()), Call("POST", CreatePath, WithParams(CreateParams(name, config.fields))), response, jenkins.State())
    {
      if "type" !in config.fields {
        config.fields := config.fields["type" := Str(DefaultType)];
      }
      config.fields := config.fields["name" := Str(name)];
      assert config.fields == Defaulted(old(config.fields), name);
      var params := CreateParams(name, config.fields);
      ghost var more, calls;
      response, more, calls := jenkins.Request("POST", CreatePath, WithParams(params));
    }

    /** `delete`: posts `doDelete` for the node. */
    method Delete(name: string) returns (r: Result<(), Exception>, ghost answer: Result<Response, Exception>)
      requires jenkins.Valid()
      modifies jenkins.Repr
      ensures jenkins.Valid() && fresh(jenkins.Repr - old(jenkins.Repr))
      ensures jenkins.history == old(jenkins.history) + [Exchange("POST", NodePath(name, "doDelete"), NoOptions, answer)]
      ensures jenkins.channel == old(jenkins.channel)
      ensures Requested(jenkins.config, jenkins.channel, jenkins.server.reply, old(jenkins.State()), Call("POST", NodePath(name, "doDelete"), NoOptions), answer, jenkins.State())
      ensures r == Discard(answer)
    {
      ghost var answers, calls;
      var response;
      response, answers, calls := jenkins.Request("POST", NodePath(name, "doDelete"), NoOptions);
      answer := response;
      r := Discard(response);
    }

    /** Sends the toggle decided on, if any. */
    method SendToggle(next: Result<Option<Call>, Exception>) returns (r: Result<(), Exception>, ghost answers: seq<Result<Response, Exception>>)
      requires jenkins.Valid()
      modifies jenkins.Repr
      ensures jenkins.Valid() && fresh(jenkins.Repr - old(jenkins.Repr))
      ensures |answers| == if next.Ok? && next.value.Some? then 1 else 0
      ensures next.Ok? && next.value.Some? ==>
        jenkins.history == old(jenkins.history) + [Made(next.value.value, answers[0])]
      ensures !(next.Ok? && next.value.Some?) ==> jenkins.history == old(jenkins.history)
      ensures jenkins.channel == old(jenkins.channel)
      ensures next.Ok? && next.value.Some? ==>
        Requested(jenkins.config, jenkins.channel, jenkins.server.reply, old(jenkins.State()), next.value.value, answers[0], jenkins.State())
      ensures !(next.Ok? && next.value.Some?) ==> jenkins.State() == old(jenkins.State())
      ensures r == match next
                   case Err(e) => Err(e)
                   case Ok(None) => Ok(())
                   case Ok(Some(_)) => Discard(answers[0])
    {
      match next
      case Err(e) =>
        r, answers := Err(e), [];
      case Ok(None) =>
        r, answers := Ok(()), [];
      case Ok(Some(t)) =>
        ghost var more, calls;
        var response;
        response, more, calls := jenkins.Request(t.verb, t.path, t.options);
        answers := [response];
        r := Discard(response);
    }

    /** `enable`: toggles the node only when it is offline. */
    method Enable(name: string)
      returns (r: Result<(), Exception>, ghost answers: seq<Result<Response, Exception>>, ghost mid: ClientState)
      requires jenkins.Valid()
      modifies jenkins.Repr
      ensures jenkins.Valid() && fresh(jenkins.Repr - old(jenkins.Repr))
      ensures 1 <= |answers| <= 2
      ensures var next := EnableToggle(name, Body(answers[0]));
        && (|answers| == 2 <==> next.Ok? && next.value.Some?)
        && jenkins.history == old(jenkins.history) + Followed(Exchange("GET", InfoPath(name), NoOptions, answers[0]), next, answers)
        && r == Outcome(next, answers)
      ensures jenkins.channel == old(jenkins.channel)
      ensures Requested(jenkins.config, jenkins.channel, jenkins.server.reply, old(jenkins.State()), Call("GET", InfoPath(name), NoOptions), answers[0], mid)
      ensures |answers| == 1 ==> jenkins.State() == mid
      ensures |answers| == 2 ==> var next := EnableToggle(name, Body(answers[0]));
        next.Ok? && next.value.Some? && Requested(jenkins.config, jenkins.channel, jenkins.server.reply, mid, next.value.value, answers[1], jenkins.State())
    {
      var info;
      ghost var answer, more;
      info, answer := GetInfo(name);
      mid := jenkins.State();
      r, more := SendToggle(EnableToggle(name, info));
      answers := [answer] + more;
    }

    /** `disable`: toggles the node, with the message, only when it is online. */
    method Disable(name: string, message: string := "")
      returns (r: Result<(), Exception>, ghost answers: seq<Result<Response, Exception>>, ghost mid: ClientState)
      requires jenkins.Valid()
      modifies jenkins.Repr
      ensures jenkins.Valid() && fresh(jenkins.Repr - old(jenkins.Repr))
      ensures 1 <= |answers| <= 2
      ensures var next := DisableToggle(name, message, Body(answers[0]));
        && (|answers| == 2 <==> next.Ok? && next.value.Some?)
        && jenkins.history == old(jenkins.history) + Followed(Exchange("GET", InfoPath(name), NoOptions, answers[0]), next, answers)
        && r == Outcome(next, answers)
      ensures jenkins.channel == old(jenkins.channel)
      ensures Requested(jenkins.config, jenkins.channel, jenkins.server.reply, old(jenkins.State()), Call("GET", InfoPath(name), NoOptions), answers[0], mid)
      ensures |answers| == 1 ==> jenkins.State() == mid
      ensures |answers| == 2 ==> var next := DisableToggle(name, message, Body(answers[0]));
        next.Ok? && next.value.Some? && Requested(jenkins.config, jenkins.channel, jenkins.server.reply, mid, next.value.value, answers[1], jenkins.State())
    {
      var info;
      ghost var answer, more;
      info, answer := GetInfo(name);
      mid := jenkins.State();
      r, more := SendToggle(DisableToggle(name, message, info));
      answers := [answer] + more;
    }

    /** `update_offline_reason`: posts the new message as the node's offline cause. */
    method UpdateOfflineReason(name: string, message: string) returns (r: Result<(), Exception>, ghost answer: Result<Response, Exception>)
      requires jenkins.Valid()
      modifies jenkins.Repr
      ensures jenkins.Valid() && fresh(jenkins.Repr - old(jenkins.Repr))
      ensures jenkins.history == old(jenkins.history) + [Exchange("POST", NodePath(name, "changeOfflineCause"), OfflineOptions(message), answer)]
      ensures jenkins.channel == old(jenkins.channel)
      ensures Requested(jenkins.config, jenkins.channel, jenkins.server.reply, old(jenkins.State()), Call("POST", NodePath(name, "changeOfflineCause"), OfflineOptions(message)), answer, jenkins.State())
      ensures r == Discard(answer)
    {
      ghost var answers, calls;
      var response;
      response, answers, calls := jenkins.Request("POST", NodePath(name, "changeOfflineCause"), OfflineOptions(message));
      answer := response;
      r := Discard(response);
    }
  }
}
