/**
 * `SimpleSpark::Endpoints::Account` (lib/simple_spark/endpoints/account.rb).
 * Its call sites use the keyword style.
 */
module Account {
  import opened JsonValue
  import opened Requests
  import ClientCore

  /** `include_values` nil (the default) sends no query; otherwise it is sent as `include`. */
  function Retrieve(includeValues: Json): (r: RequestSpec)
    ensures r.verb == Get && r.path == "account" && r.body == map[]
    ensures r.query == map[] <==> includeValues.Null?
    ensures !includeValues.Null? ==> r.query == map["include" := includeValues]
  {
    RequestSpec(Get, "account", map[], OptionalQuery("include", includeValues))
  }

  /** The values are the body; the default is `{}`. */
  function Update(values: map<string, Json>): (r: RequestSpec)
    ensures r.verb == Put && r.path == "account" && r.body == values && r.query == map[]
  {
    RequestSpec(Put, "account", values, map[])
  }

  /** Through the client: `update()` with its default sends no body at all. */
  lemma AssembledAccountRequests(c: ClientCore.Client, includeValues: Json)
    ensures c.Assemble(Update(map[])).body.None?
    ensures c.Assemble(Retrieve(includeValues)).query.None? <==> includeValues.Null?
  {
  }

  /** As written, neither call site gets past argument binding. */
  lemma CallSitesDoNotBind(includeValues: Json, values: map<string, Json>)
    ensures ClientCore.Bind(CallSite(0, {"method", "path", "query_values"}), Retrieve(includeValues)).None?
    ensures ClientCore.Bind(CallSite(0, {"method", "path", "body_values"}), Update(values)).None?
  {
  }
}
