/**
 * `SimpleSpark::Endpoints::InboundDomains`
 * (lib/simple_spark/endpoints/inbound_domains.rb): the domain is encoded in
 * paths but sent as given in the body of `create`.
 */
module InboundDomains {
  import opened Wrappers
  import opened JsonValue
  import opened Requests
  import opened PercentEncoding
  import ClientCore

  const PREFIX := "inbound-domains/"

  function List(): (r: RequestSpec)
    ensures r == Bare(Get, "inbound-domains")
  {
    RequestSpec(Get, "inbound-domains", map[], map[])
  }

  /** The body is `{ domain: d }` with `d` not encoded. */
  function Create(domain: string): (r: RequestSpec)
    ensures r.verb == Post && r.path == "inbound-domains" && r.query == map[]
    ensures r.body.Keys == {"domain"} && r.body["domain"] == Str(domain)
  {
    RequestSpec(Post, "inbound-domains", map["domain" := Str(domain)], map[])
  }

  function Retrieve(domain: seq<byte>): (r: RequestSpec)
    ensures r.verb == Get && r.body == map[] && r.query == map[]
    ensures PrefixedSegment(PREFIX, r.path, domain)
  {
    PrefixedEncodedSegment(PREFIX, domain);
    RequestSpec(Get, PREFIX + UrlEncode(domain), map[], map[])
  }

  function Delete(domain: seq<byte>): (r: RequestSpec)
    ensures r.verb == Verb.Delete && r.body == map[] && r.query == map[]
    ensures PrefixedSegment(PREFIX, r.path, domain)
  {
    PrefixedEncodedSegment(PREFIX, domain);
    RequestSpec(Verb.Delete, PREFIX + UrlEncode(domain), map[], map[])
  }

  /** Through the client: `create` always sends a body; retrieve and delete never do. */
  lemma AssembledInboundRequests(c: ClientCore.Client, name: string, domain: seq<byte>)
    ensures c.Assemble(Create(name)).body == Some(ClientCore.Encoded(map["domain" := Str(name)]))
    ensures c.Assemble(Retrieve(domain)).body.None? && c.Assemble(Delete(domain)).body.None?
  {
    assert "domain" in Create(name).body;
  }

  /**
   * Every call site binds. `create` passes `domain: d` after the verb and path;
   * Ruby gathers it into a third positional argument, the body `{ domain: d }`.
   */
  lemma CallSitesBind(name: string, domain: seq<byte>)
    ensures ClientCore.Carries(CallSite(2, {}), List())
    ensures ClientCore.Carries(CallSite(2, {"domain"}), Create(name))
    ensures ClientCore.Carries(CallSite(2, {}), Retrieve(domain))
    ensures ClientCore.Carries(CallSite(2, {}), Delete(domain))
  {
  }

  /** The exact text sent: the prefix followed by `url_encode` of the domain. */
  lemma SentPaths(domain: seq<byte>)
    ensures Retrieve(domain).path == PREFIX + UrlEncode(domain)
    ensures Delete(domain).path == PREFIX + UrlEncode(domain)
  {
  }
}
