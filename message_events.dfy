/**
 * `SimpleSpark::Endpoints::MessageEvents`
 * (lib/simple_spark/endpoints/message_events.rb).
 */
module MessageEvents {
  import opened JsonValue
  import opened Requests
  import ClientCore

  /** `events` nil (the default) sends no query. */
  function Samples(events: Json): (r: RequestSpec)
    ensures r.verb == Get && r.path == "message-events/events/samples" && r.body == map[]
    ensures r.query == map[] <==> events.Null?
    ensures !events.Null? ==> r.query == map["events" := events]
  {
    RequestSpec(Get, "message-events/events/samples", map[], OptionalQuery("events", events))
  }

  /** The search parameters are the query, unchanged; the default is `{}`. */
  function Search(params: map<string, Json>): (r: RequestSpec)
    ensures r.verb == Get && r.path == "message-events" && r.body == map[] && r.query == params
  {
    RequestSpec(Get, "message-events", map[], params)
  }

  /** Through the client: `search()` with its default sends no query, and no body is ever sent. */
  lemma AssembledMessageEventRequests(c: ClientCore.Client, events: Json, params: map<string, Json>)
    ensures c.Assemble(Search(map[])).query.None?
    ensures c.Assemble(Search(params)).body.None? && c.Assemble(Samples(events)).body.None?
    ensures c.Assemble(Samples(events)).query.None? <==> events.Null?
  {
  }

  /**
   * Each call site passes its arguments positionally, as many as its request
   * needs, so `call` receives the whole request.
   */
  lemma CallSitesBind(events: Json, params: map<string, Json>)
    ensures ClientCore.Carries(CallSite(4, {}), Samples(events))
    ensures ClientCore.Carries(CallSite(4, {}), Search(params))
  {
  }
}
