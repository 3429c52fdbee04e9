/**
 * `SimpleSpark::Endpoints::RecipientLists`
 * (lib/simple_spark/endpoints/recipient_lists.rb). Its call sites use the
 * keyword style that `Client#call` does not accept (ClientCore.Bind).
 */
module RecipientLists {
  import opened Wrappers
  import opened JsonValue
  import opened Requests
  import Decimal
  import ClientCore

  /** Default of `show_recipients`. */
  const SHOW_RECIPIENTS_DEFAULT := Bool(false)

  const COUNT_PREFIX := "recipient-lists?num_rcpt_errors="

  /** `Hash#compact`: drops the entries whose value is nil, and only those. */
  function Compact(m: map<string, Json>): (r: map<string, Json>)
    ensures forall k :: k in r <==> k in m && !m[k].Null?
    ensures forall k :: k in r ==> r[k] == m[k]
  {
    map k | k in m && !m[k].Null? :: m[k]
  }

  function List(): (r: RequestSpec)
    ensures r == Bare(Get, "recipient-lists")
  {
    RequestSpec(Get, "recipient-lists", map[], map[])
  }

  /**
   * `num_rcpt_errors` goes into the path, as decimal text, not into the
   * query; without it the path is just the collection.
   */
  function Create(values: map<string, Json>, numRcptErrors: Option<int>): (r: RequestSpec)
    ensures r.verb == Post && r.body == values && r.query == map[]
    ensures numRcptErrors.None? ==> r.path == "recipient-lists"
    ensures numRcptErrors.Some? ==> r.path == COUNT_PREFIX + Decimal.ToS(numRcptErrors.value)
    ensures numRcptErrors.Some? ==> CountPath(r.path, numRcptErrors.value)
  {
    CountSuffixFacts(numRcptErrors);
    RequestSpec(Post, "recipient-lists" + CountSuffix(numRcptErrors), values, map[])
  }

  /** Nothing without a count; otherwise a `num_rcpt_errors` query holding the count as decimal text. */
  function CountSuffix(numRcptErrors: Option<int>): string {
    if numRcptErrors.None? then "" else "?num_rcpt_errors=" + Decimal.ToS(numRcptErrors.value)
  }

  lemma CountSuffixFacts(numRcptErrors: Option<int>)
    ensures numRcptErrors.None? ==> "recipient-lists" + CountSuffix(numRcptErrors) == "recipient-lists"
    ensures numRcptErrors.Some? ==> "recipient-lists" + CountSuffix(numRcptErrors) == COUNT_PREFIX + Decimal.ToS(numRcptErrors.value)
    ensures numRcptErrors.Some? ==> CountPath("recipient-lists" + CountSuffix(numRcptErrors), numRcptErrors.value)
  {
    if numRcptErrors.Some? {
      var n := numRcptErrors.value;
      var count := Decimal.ToS(n);
      var path := "recipient-lists" + CountSuffix(numRcptErrors);
      assert path == "recipient-lists" + "?num_rcpt_errors=" + count;
      CountPathFacts(count);
      Decimal.ParseToS(n);
      assert path[|COUNT_PREFIX|..] == count;
    }
  }

  /** The path of `create` with a count: the collection, then the count as decimal text. */
  predicate CountPath(path: string, n: int) {
    && PathPart(path) == "recipient-lists"
    && |COUNT_PREFIX| <= |path| && path[..|COUNT_PREFIX|] == COUNT_PREFIX
    && Decimal.Parse(path[|COUNT_PREFIX|..]) == Some(n)
  }

  lemma CountPathFacts(count: string)
    ensures var path := "recipient-lists" + "?num_rcpt_errors=" + count;
      && PathPart(path) == "recipient-lists"
      && |COUNT_PREFIX| <= |path| && path[..|COUNT_PREFIX|] == COUNT_PREFIX
      && path[|COUNT_PREFIX|..] == count
  {
    var path := "recipient-lists" + "?num_rcpt_errors=" + count;
    assert path == "recipient-lists" + "?" + ("num_rcpt_errors=" + count);
    assert path == COUNT_PREFIX + count;
    SplitAtQuery("recipient-lists", "num_rcpt_errors=" + count);
  }

  /** The `show_recipients` flag is sent after dropping nil values: the default false is kept, only nil is dropped. */
  function Retrieve(id: string, showRecipients: Json): (r: RequestSpec)
    ensures r.verb == Get && r.path == "recipient-lists/" + id && r.body == map[]
    ensures r.query == map[] <==> showRecipients.Null?
    ensures !showRecipients.Null? ==> r.query == map["show_recipients" := showRecipients]
  {
    var params := Compact(map["show_recipients" := showRecipients]);
    assert !showRecipients.Null? ==> "show_recipients" in params;
    assert params.Keys <= {"show_recipients"};
    RequestSpec(Get, "recipient-lists/" + id, map[], params)
  }

  function Update(id: string, values: map<string, Json>): (r: RequestSpec)
    ensures r.verb == Put && r.path == "recipient-lists/" + id && r.body == values && r.query == map[]
  {
    RequestSpec(Put, "recipient-lists/" + id, values, map[])
  }

  function Delete(id: string): (r: RequestSpec)
    ensures r == Bare(Verb.Delete, "recipient-lists/" + id)
  {
    RequestSpec(Verb.Delete, "recipient-lists/" + id, map[], map[])
  }

  /**
   * Once dispatched: the default `retrieve` sends `show_recipients=false`,
   * an explicit nil sends no query, and `create` never sends one.
   */
  lemma AssembledRecipientListRequests(c: ClientCore.Client, id: string, values: map<string, Json>, n: Option<int>)
    ensures c.Assemble(Retrieve(id, SHOW_RECIPIENTS_DEFAULT)).query == Some(map["show_recipients" := Bool(false)])
    ensures c.Assemble(Retrieve(id, Null)).query.None?
    ensures c.Assemble(Create(values, n)).query.None?
  {
    assert "show_recipients" in Retrieve(id, SHOW_RECIPIENTS_DEFAULT).query;
  }

  /** As written, none of these call sites gets past argument binding. */
  lemma CallSitesDoNotBind(id: string, values: map<string, Json>, n: Option<int>, showRecipients: Json)
    ensures ClientCore.Bind(CallSite(0, {"method", "path"}), List()).None?
    ensures ClientCore.Bind(CallSite(0, {"method", "path", "body_values"}), Create(values, n)).None?
    ensures ClientCore.Bind(CallSite(0, {"method", "path", "query_values"}), Retrieve(id, showRecipients)).None?
    ensures ClientCore.Bind(CallSite(0, {"method", "path", "body_values"}), Update(id, values)).None?
    ensures ClientCore.Bind(CallSite(0, {"method", "path"}), Delete(id)).None?
  {
  }
}
