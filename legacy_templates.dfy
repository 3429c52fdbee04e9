/**
 * `SimpleSpark::Templates` (lib/simple_spark/templates.rb), the older
 * templates resource: query data is interpolated into the path and no
 * query Hash is ever passed to `call`.
 */
module LegacyTemplates {
  import opened Wrappers
  import opened JsonValue
  import opened Requests
  import EndpointTemplates
  import ClientCore

  /** The draft flag appended to the path as a `draft` query, or nothing when no flag is given. */
  function DraftSuffix(draft: Option<bool>): string {
    if draft.None? then "" else "?draft=" + BoolText(draft.value)
  }

  /** The query text the draft flag becomes. */
  function DraftQuery(draft: Option<bool>): Option<string> {
    if draft.None? then None else Some("draft=" + BoolText(draft.value))
  }

  /** The query text the `update_published` flag becomes. */
  function FlagQuery(flag: bool): string {
    "update_published=" + BoolText(flag)
  }

  /** Splitting a path built here at its first `?` recovers the two parts, when the id has no `?`. */
  lemma DraftSuffixSplits(path: string, draft: Option<bool>)
    ensures '?' !in path ==> PathPart(path + DraftSuffix(draft)) == path
    ensures '?' !in path ==> QueryPart(path + DraftSuffix(draft)) == DraftQuery(draft)
  {
    if '?' !in path {
      if draft.None? {
        assert path + DraftSuffix(draft) == path;
        NoQueryPart(path);
      } else {
        assert path + DraftSuffix(draft) == path + "?" + ("draft=" + BoolText(draft.value));
        SplitAtQuery(path, "draft=" + BoolText(draft.value));
      }
    }
  }

  lemma FlagSuffixSplits(path: string, flag: bool)
    ensures '?' !in path ==> PathPart(path + "?update_published=" + BoolText(flag)) == path
    ensures '?' !in path ==> QueryPart(path + "?update_published=" + BoolText(flag)) == Some(FlagQuery(flag))
  {
    if '?' !in path {
      var query := FlagQuery(flag);
      assert path + "?update_published=" + BoolText(flag) == path + "?" + query;
      SplitAtQuery(path, query);
    }
  }

  function List(): (r: RequestSpec)
    ensures r == Bare(Get, "templates")
  {
    RequestSpec(Get, "templates", map[], map[])
  }

  function Create(values: map<string, Json>): (r: RequestSpec)
    ensures r.verb == Post && r.path == "templates" && r.body == values && r.query == map[]
  {
    RequestSpec(Post, "templates", values, map[])
  }

  function Retrieve(id: string, draft: Option<bool>): (r: RequestSpec)
    ensures r.verb == Get && r.body == map[] && r.query == map[]
    ensures '?' !in id ==> PathPart(r.path) == "templates/" + id
    ensures '?' !in id ==> QueryPart(r.path) == DraftQuery(draft)
  {
    var path := "templates/" + id;
    DraftSuffixSplits(path, draft);
    RequestSpec(Get, path + DraftSuffix(draft), map[], map[])
  }

  /** `update_published` defaults to false and is always in the path. */
  function Update(id: string, values: map<string, Json>, updatePublished: bool): (r: RequestSpec)
    ensures r.verb == Put && r.body == values && r.query == map[]
    ensures '?' !in id ==> PathPart(r.path) == "templates/" + id
    ensures '?' !in id ==> QueryPart(r.path) == Some(FlagQuery(updatePublished))
  {
    var path := "templates/" + id;
    FlagSuffixSplits(path, updatePublished);
    RequestSpec(Put, path + "?update_published=" + BoolText(updatePublished), values, map[])
  }

  function Preview(id: string, values: map<string, Json>, draft: Option<bool>): (r: RequestSpec)
    ensures r.verb == Post && r.body == values && r.query == map[]
    ensures '?' !in id ==> PathPart(r.path) == "templates/" + id + "/preview"
    ensures '?' !in id ==> QueryPart(r.path) == DraftQuery(draft)
  {
    var path := "templates/" + id + "/preview";
    DraftSuffixSplits(path, draft);
    RequestSpec(Post, path + DraftSuffix(draft), values, map[])
  }

  function Delete(id: string): (r: RequestSpec)
    ensures r == Bare(Verb.Delete, "templates/" + id)
  {
    RequestSpec(Verb.Delete, "templates/" + id, map[], map[])
  }

  /**
   * The two templates resources agree on `retrieve` except for where the
   * draft flag travels: here in the path, there in the query Hash.
   */
  lemma RetrieveMatchesEndpoint(id: string, draft: bool)
    ensures Retrieve(id, Some(draft)).path == EndpointTemplates.Retrieve(id, Bool(draft)).path + "?draft=" + BoolText(draft)
    ensures Retrieve(id, Some(draft)).query == map[]
    ensures EndpointTemplates.Retrieve(id, Bool(draft)).query == map["draft" := Bool(draft)]
    ensures Retrieve(id, None) == EndpointTemplates.Retrieve(id, Null)
  {
  }

  /**
   * For every id, `?` included: `update` and `preview` append their query
   * text to the path of the template `retrieve` reads.
   */
  lemma PathsForEveryId(id: string, values: map<string, Json>, flag: bool, draft: Option<bool>)
    ensures Update(id, values, flag).path == EndpointTemplates.Retrieve(id, Null).path + "?" + FlagQuery(flag)
    ensures Preview(id, values, draft).path == EndpointTemplates.Retrieve(id, Null).path + "/preview" + DraftSuffix(draft)
    ensures Retrieve(id, draft).path == EndpointTemplates.Retrieve(id, Null).path + DraftSuffix(draft)
  {
  }

  /**
   * Unlike the single-quoted path of the endpoints version, this `update`
   * addresses the template it is given.
   */
  lemma UpdateAddressesItsTemplate(id: string, values: map<string, Json>, flag: bool)
    requires '?' !in id
    ensures PathPart(Update(id, values, flag).path) == EndpointTemplates.Retrieve(id, Null).path
  {
  }

  /**
   * Each call site passes its arguments positionally, as many as its request
   * needs, so `call` receives the whole request.
   */
  lemma CallSitesBind(id: string, values: map<string, Json>, flag: bool, draft: Option<bool>)
    ensures ClientCore.Carries(CallSite(2, {}), List())
    ensures ClientCore.Carries(CallSite(3, {}), Create(values))
    ensures ClientCore.Carries(CallSite(2, {}), Retrieve(id, draft))
    ensures ClientCore.Carries(CallSite(3, {}), Update(id, values, flag))
    ensures ClientCore.Carries(CallSite(3, {}), Preview(id, values, draft))
    ensures ClientCore.Carries(CallSite(2, {}), Delete(id))
  {
  }
}
