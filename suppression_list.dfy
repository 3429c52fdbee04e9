/**
 * `SimpleSpark::Endpoints::SuppressionList`
 * (lib/simple_spark/endpoints/suppression_list.rb): recipient emails are
 * percent-encoded into one path segment. Its call sites use the keyword
 * style, with `query_params:` as the query key.
 */
module SuppressionList {
  import opened Wrappers
  import opened JsonValue
  import opened Requests
  import opened PercentEncoding
  import ClientCore

  const PREFIX := "suppression-list/"

  /** The search parameters are the query, unchanged; the default is `{}`. */
  function Search(params: map<string, Json>): (r: RequestSpec)
    ensures r.verb == Get && r.path == "suppression-list" && r.body == map[] && r.query == params
  {
    RequestSpec(Get, "suppression-list", map[], params)
  }

  /** The recipients travel wrapped as `{ recipients: .. }`. */
  function CreateOrUpdate(recipients: Json): (r: RequestSpec)
    ensures r.verb == Put && r.path == "suppression-list" && r.query == map[]
    ensures r.body.Keys == {"recipients"} && r.body["recipients"] == recipients
  {
    RequestSpec(Put, "suppression-list", map["recipients" := recipients], map[])
  }

  function Retrieve(email: seq<byte>): (r: RequestSpec)
    ensures r.verb == Get && r.body == map[] && r.query == map[]
    ensures PrefixedSegment(PREFIX, r.path, email)
  {
    PrefixedEncodedSegment(PREFIX, email);
    RequestSpec(Get, PREFIX + UrlEncode(email), map[], map[])
  }

  function Delete(email: seq<byte>): (r: RequestSpec)
    ensures r.verb == Verb.Delete && r.body == map[] && r.query == map[]
    ensures PrefixedSegment(PREFIX, r.path, email)
  {
    PrefixedEncodedSegment(PREFIX, email);
    RequestSpec(Verb.Delete, PREFIX + UrlEncode(email), map[], map[])
  }

  /**
   * In an address whose local part and domain are unreserved, such as
   * `rcpt_1@example.com` (PercentEncoding.UrlEncodeEmailExample), only the
   * `@` is encoded, as `%40`.
   */
  lemma OnlyAtSignEncoded(local: seq<byte>, domain: seq<byte>)
    requires forall i :: 0 <= i < |local| ==> Unreserved(local[i])
    requires forall i :: 0 <= i < |domain| ==> Unreserved(domain[i])
    ensures Retrieve(local + [64] + domain).path == PREFIX + Chars(local) + "%40" + Chars(domain)
  {
    UrlEncodeAtSign(local, domain);
  }

  /** Through the client: a search with the default `{}` sends no query. */
  lemma AssembledSuppressionRequests(c: ClientCore.Client, recipients: Json)
    ensures c.Assemble(Search(map[])).query.None?
    ensures c.Assemble(CreateOrUpdate(recipients)).body == Some(ClientCore.Encoded(map["recipients" := recipients]))
  {
    assert "recipients" in CreateOrUpdate(recipients).body;
  }

  /** As written, none of these call sites gets past argument binding. */
  lemma CallSitesDoNotBind(params: map<string, Json>, recipients: Json, email: seq<byte>)
    ensures ClientCore.Bind(CallSite(0, {"method", "path", "query_params"}), Search(params)).None?
    ensures ClientCore.Bind(CallSite(0, {"method", "path", "body_values"}), CreateOrUpdate(recipients)).None?
    ensures ClientCore.Bind(CallSite(0, {"method", "path"}), Retrieve(email)).None?
    ensures ClientCore.Bind(CallSite(0, {"method", "path"}), Delete(email)).None?
  {
  }

  /** The exact text sent: the prefix followed by `url_encode` of the email. */
  lemma SentPaths(email: seq<byte>)
    ensures Retrieve(email).path == PREFIX + UrlEncode(email)
    ensures Delete(email).path == PREFIX + UrlEncode(email)
  {
  }
}
