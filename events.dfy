/**
 * `SimpleSpark::Endpoints::Events` (lib/simple_spark/endpoints/events.rb).
 * Its call sites use the keyword style.
 */
module Events {
  import opened JsonValue
  import opened Requests
  import ClientCore

  /** `events` nil (the default) sends no query. */
  function Samples(events: Json): (r: RequestSpec)
    ensures r.verb == Get && r.path == "events/message/samples" && r.body == map[]
    ensures r.query == map[] <==> events.Null?
    ensures !events.Null? ==> r.query == map["events" := events]
  {
    RequestSpec(Get, "events/message/samples", map[], OptionalQuery("events", events))
  }

  /** The search parameters are the query, unchanged. */
  function Search(params: map<string, Json>): (r: RequestSpec)
    ensures r.verb == Get && r.path == "events/message" && r.body == map[] && r.query == params
  {
    RequestSpec(Get, "events/message", map[], params)
  }

  /** Through the client: neither method ever sends a body. */
  lemma AssembledEventRequests(c: ClientCore.Client, events: Json, params: map<string, Json>)
    ensures c.Assemble(Samples(events)).body.None?
    ensures c.Assemble(Search(params)).body.None?
    ensures c.Assemble(Search(params)).query.Some? <==> |params| > 0
  {
  }

  /** As written, neither call site gets past argument binding. */
  lemma CallSitesDoNotBind(events: Json, params: map<string, Json>)
    ensures ClientCore.Bind(CallSite(0, {"method", "path", "query_values"}), Samples(events)).None?
    ensures ClientCore.Bind(CallSite(0, {"method", "path", "query_values"}), Search(params)).None?
  {
  }
}
