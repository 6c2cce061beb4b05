/** `Queue`: the build queue, its items keyed by their `id`. */
module Queue {
  import opened Wrappers
  import opened Text
  import opened Json
  import opened Exceptions
  import opened Http
  import opened Client

  const QueuePath := "/queue/api/json"

  /** `get_all`: `{item['id']: item for item in items}`. */
  function QueueMap(body: Result<Json, Exception>): Result<map<Json, Json>, Exception> {
    Listing(body, "items", "id")
  }

  /**
   * For a queue whose items all carry an id: the keys are exactly the ids,
   * a repeated id keeps the last item, and there are at most as many
   * entries as items, exactly as many when the ids are distinct.
   */
  lemma QueueMapContents(doc: Json)
    requires Field(doc, "items").Some? && Field(doc, "items").value.Arr?
    requires AllKeyed(Field(doc, "items").value.items, "id")
    ensures var items := Field(doc, "items").value.items;
      var r := QueueMap(Ok(doc));
      && r.Ok? && r.value.Keys == KeysOf(items, "id")
      && (forall i :: 0 <= i < |items| && LastWithKey(items, "id", i) ==> r.value[KeyOf(items[i], "id").value] == items[i])
      && |r.value| <= |items|
      && (DistinctKeys(items, "id") ==> |r.value| == |items|)
  {
    ListingContents(doc, "items", "id");
  }

  /** A queue with a single item gives a map with that one item under its id. */
  lemma SingleQueuedItem(doc: Json, item: Json)
    requires Field(doc, "items") == Some(Arr([item])) && KeyOf(item, "id").Some?
    ensures QueueMap(Ok(doc)) == Ok(map[KeyOf(item, "id").value := item])
  {
    SingleItem(item, "id");
    KeyByDefined([item], "id");
  }

  function ItemCall(itemId: int): Call {
    Call("GET", "/queue/item/" + IntToString(itemId) + "/api/json", NoOptions)
  }

  function CancelCall(itemId: int): Call {
    Call("POST", "/queue/cancelItem", WithParams(map["id" := Value(Int(itemId))]))
  }

  class Queue {
    const jenkins: Jenkins

    constructor (jenkins: Jenkins)
      ensures this.jenkins == jenkins
    {
      this.jenkins := jenkins;
    }

    /** `get_all`: every queued item, keyed by id. */
    method GetAll() returns (r: Result<map<Json, Json>, Exception>, ghost answer: Result<Response, Exception>)
      requires jenkins.Valid()
      modifies jenkins.Repr
      ensures jenkins.Valid() && fresh(jenkins.Repr - old(jenkins.Repr))
      ensures jenkins.history == old(jenkins.history) + [Exchange("GET", QueuePath, NoOptions, answer)]
      ensures jenkins.channel == old(jenkins.channel)
      ensures Requested(jenkins.config, jenkins.channel, jenkins.server.reply, old(jenkins.State()), Call("GET", QueuePath, NoOptions), answer, jenkins.State())
      ensures r == QueueMap(Body(answer))
    {
      ghost var answers, calls;
      var response;
      response, answers, calls := jenkins.Request("GET", QueuePath, NoOptions);
      answer := response;
      r := QueueMap(Body(response));
    }

    /** `get_info`: the description of one queued item. */
    method GetInfo(itemId: int) returns (r: Result<Json, Exception>, ghost answer: Result<Response, Exception>)
      requires jenkins.Valid()
      modifies jenkins.Repr
      ensures jenkins.Valid() && fresh(jenkins.Repr - old(jenkins.Repr))
      ensures jenkins.history == old(jenkins.history) + [Made(ItemCall(itemId), answer)]
      ensures jenkins.channel == old(jenkins.channel)
      ensures Requested(jenkins.config, jenkins.channel, jenkins.server.reply, old(jenkins.State()), ItemCall(itemId), answer, jenkins.State())
      ensures r == Body(answer)
    {
      ghost var answers, calls;
      var response;
      response, answers, calls := jenkins.Request("GET", "/queue/item/" + IntToString(itemId) + "/api/json", NoOptions);
      answer := response;
      r := Body(response);
    }

    /** `cancel`: removes the item from the queue; nothing is returned. */
    method Cancel(itemId: int) returns (r: Result<(), Exception>, ghost answer: Result<Response, Exception>)
      requires jenkins.Valid()
      modifies jenkins.Repr
      ensures jenkins.Valid() && fresh(jenkins.Repr - old(jenkins.Repr))
      ensures jenkins.history == old(jenkins.history) + [Made(CancelCall(itemId), answer)]
      ensures jenkins.channel == old(jenkins.channel)
      ensures Requested(jenkins.config, jenkins.channel, jenkins.server.reply, old(jenkins.State()), CancelCall(itemId), answer, jenkins.State())
      ensures r == Discard(answer)
    {
      ghost var answers, calls;
      var response;
      response, answers, calls := jenkins.Request("POST", "/queue/cancelItem", WithParams(map["id" := Value(Int(itemId))]));
      answer := response;
      r := Discard(response);
    }
  }
}
