/** `Plugins`: the installed plugins, keyed by their `shortName`. */
module Plugins {
  import opened Wrappers
  import opened Text
  import opened Json
  import opened Exceptions
  import opened Http
  import opened Executor
  import opened Client

  const DefaultDepth := 2

  /** `/pluginManager/api/json?depth={depth}`. */
  function PluginsPath(depth: int): string {
    "/pluginManager/api/json?depth=" + IntToString(depth)
  }

  /** `get_all`: `{p['shortName']: p for p in plugins}`. */
  function PluginMap(body: Result<Json, Exception>): Result<map<Json, Json>, Exception> {
    Listing(body, "plugins", "shortName")
  }

  /** Every short name is a key, no other is, and a repeated short name keeps the last record. */
  lemma PluginMapContents(doc: Json)
    requires Field(doc, "plugins").Some? && Field(doc, "plugins").value.Arr?
    requires AllKeyed(Field(doc, "plugins").value.items, "shortName")
    ensures var items := Field(doc, "plugins").value.items;
      var r := PluginMap(Ok(doc));
      && r.Ok? && r.value.Keys == KeysOf(items, "shortName")
      && forall i :: 0 <= i < |items| && LastWithKey(items, "shortName", i) ==>
           r.value[KeyOf(items[i], "shortName").value] == items[i]
  {
    ListingContents(doc, "plugins", "shortName");
  }

  /**
   * The plugin path is relative, so the executor sends it to the host
   * with the depth as the query, and the host's trailing '/' gone.
   */
  lemma PluginUrl(cfg: Config, depth: int)
    ensures ResolveUrl(cfg.host, PluginsPath(depth)) == cfg.host + "/pluginManager/api/json?depth=" + IntToString(depth)
  {
    assert PluginsPath(depth)[..4] == "/plu";
  }

  class Plugins {
    const jenkins: Jenkins

    constructor (jenkins: Jenkins)
      ensures this.jenkins == jenkins
    {
      this.jenkins := jenkins;
    }

    /** `get_all`: every plugin, with its details down to `depth` levels. */
    method GetAll(depth: int := DefaultDepth) returns (r: Result<map<Json, Json>, Exception>, ghost answer: Result<Response, Exception>)
      requires jenkins.Valid()
      modifies jenkins.Repr
      ensures jenkins.Valid() && fresh(jenkins.Repr - old(jenkins.Repr))
      ensures jenkins.history == old(jenkins.history) + [Exchange("GET", PluginsPath(depth), NoOptions, answer)]
      ensures jenkins.channel == old(jenkins.channel)
      ensures Requested(jenkins.config, jenkins.channel, jenkins.server.reply, old(jenkins.State()), Call("GET", PluginsPath(depth), NoOptions), answer, jenkins.State())
      ensures r == PluginMap(Body(answer))
    {
      ghost var answers, calls;
      var response;
      response, answers, calls := jenkins.Request("GET", "/pluginManager/api/json?depth=" + IntToString(depth), NoOptions);
      answer := response;
      r := PluginMap(Body(response));
    }
  }
}
