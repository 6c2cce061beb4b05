/** `Views`: the server's views, as `get_status` lists them, keyed by `name`. */
module Views {
  import opened Wrappers
  import opened Json
  import opened Exceptions
  import opened Http
  import opened Client

  /** `get_all`: `{v['name']: v for v in status['views']}`. */
  function ViewMap(status: Result<Json, Exception>): Result<map<Json, Json>, Exception> {
    Listing(status, "views", "name")
  }

  /** `is_exists`: `name in views`, after `get_all`. */
  function ViewExists(name: string, views: Result<map<Json, Json>, Exception>): (r: Result<bool, Exception>)
    ensures views.Err? ==> r == Err(views.error)
    ensures views.Ok? ==> r == Ok(Str(name) in views.value)
  {
    match views
    case Err(e) => Err(e)
    case Ok(m) => Ok(Str(name) in m)
  }

  /**
   * With a status listing views that all carry a name, a view exists
   * exactly when some listed view carries that very name; an absent view
   * is `false`, never an error.
   */
  lemma ExistsIffListed(doc: Json, name: string)
    requires Field(doc, "views").Some? && Field(doc, "views").value.Arr?
    requires AllKeyed(Field(doc, "views").value.items, "name")
    ensures var items := Field(doc, "views").value.items;
      var r := ViewExists(name, ViewMap(Ok(doc)));
      && r.Ok?
      && (r.value <==> exists i :: 0 <= i < |items| && KeyOf(items[i], "name") == Some(Str(name)))
  {
    var items := Field(doc, "views").value.items;
    ListingContents(doc, "views", "name");
    if Str(name) in ViewMap(Ok(doc)).value {
      var i :| 0 <= i < |items| && KeyOf(items[i], "name").value == Str(name);
    }
  }

  /** Only an error getting the status propagates from `is_exists`; a readable listing never raises. */
  lemma OnlyStatusErrorsPropagate(name: string, status: Result<Json, Exception>)
    ensures var r := ViewExists(name, ViewMap(status));
      r.Err? ==> (status.Err? && r.error == status.error) || (status.Ok? && r.error == Malformed)
  {
  }

  class Views {
    const jenkins: Jenkins

    constructor (jenkins: Jenkins)
      ensures this.jenkins == jenkins
    {
      this.jenkins := jenkins;
    }

    /** `get_all`: every view, from the server status. */
    method GetAll() returns (r: Result<map<Json, Json>, Exception>, ghost answer: Result<Response, Exception>)
      requires jenkins.Valid()
      modifies jenkins.Repr
      ensures jenkins.Valid() && fresh(jenkins.Repr - old(jenkins.Repr))
      ensures jenkins.history == old(jenkins.history) + [Exchange("GET", "/api/json", NoOptions, answer)]
      ensures jenkins.channel == old(jenkins.channel)
      ensures Requested(jenkins.config, jenkins.channel, jenkins.server.reply, old(jenkins.State()), Call("GET", "/api/json", NoOptions), answer, jenkins.State())
      ensures r == ViewMap(Body(answer))
    {
      var status;
      status, answer := jenkins.GetStatus();
      r := ViewMap(status);
    }

    /** `is_exists`: whether a view of exactly that name is listed. */
    method IsExists(name: string) returns (r: Result<bool, Exception>, ghost answer: Result<Response, Exception>)
      requires jenkins.Valid()
      modifies jenkins.Repr
      ensures jenkins.Valid() && fresh(jenkins.Repr - old(jenkins.Repr))
      ensures jenkins.history == old(jenkins.history) + [Exchange("GET", "/api/json", NoOptions, answer)]
      ensures jenkins.channel == old(jenkins.channel)
      ensures Requested(jenkins.config, jenkins.channel, jenkins.server.reply, old(jenkins.State()), Call("GET", "/api/json", NoOptions), answer, jenkins.State())
      ensures r == ViewExists(name, ViewMap(Body(answer)))
    {
      var views;
      views, answer := GetAll();
      r := ViewExists(name, views);
    }
  }
}
