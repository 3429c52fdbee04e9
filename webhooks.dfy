/**
 * `SimpleSpark::Endpoints::Webhooks` (lib/simple_spark/endpoints/webhooks.rb):
 * ids go into the path as given, optional arguments become one-entry queries.
 */
module Webhooks {
  import opened Wrappers
  import opened JsonValue
  import opened Requests
  import ClientCore

  /** `timezone` nil (the default) sends no query. */
  function List(timezone: Json): (r: RequestSpec)
    ensures r.verb == Get && r.path == "webhooks" && r.body == map[]
    ensures r.query == map[] <==> timezone.Null?
    ensures !timezone.Null? ==> r.query == map["timezone" := timezone]
  {
    RequestSpec(Get, "webhooks", map[], OptionalQuery("timezone", timezone))
  }

  function Create(values: map<string, Json>): (r: RequestSpec)
    ensures r.verb == Post && r.path == "webhooks" && r.body == values && r.query == map[]
  {
    RequestSpec(Post, "webhooks", values, map[])
  }

  function Retrieve(id: string): (r: RequestSpec)
    ensures r == Bare(Get, "webhooks/" + id)
  {
    RequestSpec(Get, "webhooks/" + id, map[], map[])
  }

  function Update(id: string, values: map<string, Json>): (r: RequestSpec)
    ensures r.verb == Put && r.path == "webhooks/" + id && r.body == values && r.query == map[]
  {
    RequestSpec(Put, "webhooks/" + id, values, map[])
  }

  /** A POST with neither body nor query. */
  function Validate(id: string): (r: RequestSpec)
    ensures r == Bare(Post, "webhooks/" + id + "/validate")
  {
    RequestSpec(Post, "webhooks/" + id + "/validate", map[], map[])
  }

  /** `limit` nil (the default) sends no query. */
  function BatchStatus(id: string, limit: Json): (r: RequestSpec)
    ensures r.verb == Get && r.path == "webhooks/" + id + "/batch-status" && r.body == map[]
    ensures r.query == map[] <==> limit.Null?
    ensures !limit.Null? ==> r.query == map["limit" := limit]
  {
    RequestSpec(Get, "webhooks/" + id + "/batch-status", map[], OptionalQuery("limit", limit))
  }

  /** `events` nil (the default) sends no query. */
  function Samples(events: Json): (r: RequestSpec)
    ensures r.verb == Get && r.path == "webhooks/events/samples" && r.body == map[]
    ensures r.query == map[] <==> events.Null?
    ensures !events.Null? ==> r.query == map["events" := events]
  {
    RequestSpec(Get, "webhooks/events/samples", map[], OptionalQuery("events", events))
  }

  function Delete(id: string): (r: RequestSpec)
    ensures r == Bare(Verb.Delete, "webhooks/" + id)
  {
    RequestSpec(Verb.Delete, "webhooks/" + id, map[], map[])
  }

  /**
   * Through the client: `validate` sends no body, and the optional-argument
   * methods send a query exactly when their argument is given.
   */
  lemma AssembledWebhookRequests(c: ClientCore.Client, id: string, timezone: Json, limit: Json, events: Json)
    ensures c.Assemble(Validate(id)).body.None?
    ensures c.Assemble(List(timezone)).query.None? <==> timezone.Null?
    ensures c.Assemble(BatchStatus(id, limit)).query.None? <==> limit.Null?
    ensures c.Assemble(Samples(events)).query.None? <==> events.Null?
  {
  }

  /** Ids are not encoded: a `/` in an id adds path segments. */
  lemma IdsAreNotEncoded(id: string)
    ensures Retrieve(id).path[|"webhooks/"|..] == id
  {
  }

  /**
   * Each call site passes its arguments positionally, as many as its request
   * needs, so `call` receives the whole request.
   */
  lemma CallSitesBind(id: string, values: map<string, Json>, timezone: Json, limit: Json, events: Json)
    ensures ClientCore.Carries(CallSite(4, {}), List(timezone))
    ensures ClientCore.Carries(CallSite(3, {}), Create(values))
    ensures ClientCore.Carries(CallSite(2, {}), Retrieve(id))
    ensures ClientCore.Carries(CallSite(3, {}), Update(id, values))
    ensures ClientCore.Carries(CallSite(2, {}), Validate(id))
    ensures ClientCore.Carries(CallSite(4, {}), BatchStatus(id, limit))
    ensures ClientCore.Carries(CallSite(4, {}), Samples(events))
    ensures ClientCore.Carries(CallSite(2, {}), Delete(id))
  {
  }
}
