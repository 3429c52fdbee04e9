/**
 * `SimpleSpark::Endpoints::SendingDomains`
 * (lib/simple_spark/endpoints/sending_domains.rb): the domain name is
 * percent-encoded into one path segment.
 */
module SendingDomains {
  import opened JsonValue
  import opened Requests
  import opened PercentEncoding
  import ClientCore

  const PREFIX := "sending-domains/"

  function List(): (r: RequestSpec)
    ensures r == Bare(Get, "sending-domains")
  {
    RequestSpec(Get, "sending-domains", map[], map[])
  }

  function Create(values: map<string, Json>): (r: RequestSpec)
    ensures r.verb == Post && r.path == "sending-domains" && r.body == values && r.query == map[]
  {
    RequestSpec(Post, "sending-domains", values, map[])
  }

  function Retrieve(domain: seq<byte>): (r: RequestSpec)
    ensures r.verb == Get && r.body == map[] && r.query == map[]
    ensures PrefixedSegment(PREFIX, r.path, domain)
  {
    PrefixedEncodedSegment(PREFIX, domain);
    RequestSpec(Get, PREFIX + UrlEncode(domain), map[], map[])
  }

  function Update(domain: seq<byte>, values: map<string, Json>): (r: RequestSpec)
    ensures r.verb == Put && r.body == values && r.query == map[]
    ensures PrefixedSegment(PREFIX, r.path, domain)
  {
    PrefixedEncodedSegment(PREFIX, domain);
    RequestSpec(Put, PREFIX + UrlEncode(domain), values, map[])
  }

  /** `sending-domains/<encoded domain>/verify`. */
  function Verify(domain: seq<byte>, values: map<string, Json>): (r: RequestSpec)
    ensures r.verb == Post && r.body == values && r.query == map[]
    ensures exists segment :: r.path == PREFIX + segment + "/verify" && EncodedSegment(segment, domain)
  {
    UrlEncodeIsSegment(domain);
    RequestSpec(Post, PREFIX + UrlEncode(domain) + "/verify", values, map[])
  }

  function Delete(domain: seq<byte>): (r: RequestSpec)
    ensures r.verb == Verb.Delete && r.body == map[] && r.query == map[]
    ensures PrefixedSegment(PREFIX, r.path, domain)
  {
    PrefixedEncodedSegment(PREFIX, domain);
    RequestSpec(Verb.Delete, PREFIX + UrlEncode(domain), map[], map[])
  }

  /** Retrieve, update and delete address the same resource, distinct domains distinct ones. */
  lemma SamePathPerDomain(a: seq<byte>, b: seq<byte>, values: map<string, Json>)
    ensures Retrieve(a).path == Update(a, values).path == Delete(a).path
    ensures Retrieve(a).path == Retrieve(b).path <==> a == b
  {
    UrlEncodeInjective(a, b);
    if Retrieve(a).path == Retrieve(b).path {
      assert Retrieve(a).path[|PREFIX|..] == UrlEncode(a);
      assert Retrieve(b).path[|PREFIX|..] == UrlEncode(b);
    }
  }

  /**
   * A name of unreserved characters only, such as `example1.com`
   * (PercentEncoding.UrlEncodeDomainExample), is sent verbatim.
   */
  lemma VerbatimDomain(domain: seq<byte>)
    requires forall i :: 0 <= i < |domain| ==> Unreserved(domain[i])
    ensures Retrieve(domain).path == PREFIX + Chars(domain)
  {
    UrlEncodeKeepsUnreserved(domain);
  }

  /** A `/` inside a name is encoded as `%2F`, so the name stays one segment. */
  lemma SlashDomainExample()
    ensures Retrieve(Ascii("a/b")).path == "sending-domains/a%2Fb"
  {
    UrlEncodeSlashExample();
  }

  /** Through the client: the encoded name lands right after the base path. */
  lemma AssembledRetrieve(c: ClientCore.Client, domain: seq<byte>)
    ensures c.Assemble(Retrieve(domain)).path == c.basePath + PREFIX + UrlEncode(domain)
    ensures c.Assemble(Retrieve(domain)).body.None? && c.Assemble(Retrieve(domain)).query.None?
  {
  }

  /**
   * Each call site passes its arguments positionally, as many as its request
   * needs, so `call` receives the whole request.
   */
  lemma CallSitesBind(domain: seq<byte>, values: map<string, Json>)
    ensures ClientCore.Carries(CallSite(2, {}), List())
    ensures ClientCore.Carries(CallSite(3, {}), Create(values))
    ensures ClientCore.Carries(CallSite(2, {}), Retrieve(domain))
    ensures ClientCore.Carries(CallSite(3, {}), Update(domain, values))
    ensures ClientCore.Carries(CallSite(3, {}), Verify(domain, values))
    ensures ClientCore.Carries(CallSite(2, {}), Delete(domain))
  {
  }

  /** The exact text sent: the prefix followed by `url_encode` of the domain. */
  lemma SentPaths(domain: seq<byte>, values: map<string, Json>)
    ensures Retrieve(domain).path == PREFIX + UrlEncode(domain)
    ensures Update(domain, values).path == PREFIX + UrlEncode(domain)
    ensures Verify(domain, values).path == PREFIX + UrlEncode(domain) + "/verify"
    ensures Delete(domain).path == PREFIX + UrlEncode(domain)
  {
  }
}
