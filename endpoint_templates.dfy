/**
 * `SimpleSpark::Endpoints::Templates` (lib/simple_spark/endpoints/templates.rb).
 * `update` and `preview` write their paths in single quotes, so the text
 * `#{id}` is sent literally and the id is never used.
 */
module EndpointTemplates {
  import opened Wrappers
  import opened JsonValue
  import opened Requests
  import ClientCore

  /** Default of `update_published`. */
  const UPDATE_PUBLISHED_DEFAULT := Bool(false)

  function List(): (r: RequestSpec)
    ensures r == Bare(Get, "templates")
  {
    RequestSpec(Get, "templates", map[], map[])
  }

  function Create(values: map<string, Json>): (r: RequestSpec)
    ensures r.verb == Post && r.path == "templates" && r.body == values && r.query == map[]
  {
    RequestSpec(Post, "templates", values, map[])
  }

  /** `draft` nil (the default) sends no query; any other value is sent as `draft`. */
  function Retrieve(id: string, draft: Json): (r: RequestSpec)
    ensures r.verb == Get && r.path == "templates/" + id && r.body == map[]
    ensures r.query == map[] <==> draft.Null?
    ensures !draft.Null? ==> r.query == map["draft" := draft]
  {
    RequestSpec(Get, "templates/" + id, map[], OptionalQuery("draft", draft))
  }

  /** The path is the literal text `templates/#{id}`; the query always holds `update_published`. */
  function Update(id: string, values: map<string, Json>, updatePublished: Json): (r: RequestSpec)
    ensures r.verb == Put && r.path == "templates/#{id}" && r.body == values
    ensures r.query.Keys == {"update_published"} && r.query["update_published"] == updatePublished
  {
    RequestSpec(Put, "templates/#{id}", values, map["update_published" := updatePublished])
  }

  /** The path is the literal text `templates/#{id}/preview`. */
  function Preview(id: string, substitutions: map<string, Json>, draft: Json): (r: RequestSpec)
    ensures r.verb == Post && r.path == "templates/#{id}/preview" && r.body == substitutions
    ensures r.query == map[] <==> draft.Null?
    ensures !draft.Null? ==> r.query == map["draft" := draft]
  {
    RequestSpec(Post, "templates/#{id}/preview", substitutions, OptionalQuery("draft", draft))
  }

  function Delete(id: string): (r: RequestSpec)
    ensures r == Bare(Verb.Delete, "templates/" + id)
  {
    RequestSpec(Verb.Delete, "templates/" + id, map[], map[])
  }

  /** `update` and `preview` build the same request for every id. */
  lemma UpdateAndPreviewIgnoreId(a: string, b: string, values: map<string, Json>, flag: Json, draft: Json)
    ensures Update(a, values, flag) == Update(b, values, flag)
    ensures Preview(a, values, draft) == Preview(b, values, draft)
  {
  }

  /**
   * `update` addresses the template that `retrieve` reads only for the one
   * id spelled `#{id}`.
   */
  lemma UpdateMissesRetrievedTemplate(id: string, values: map<string, Json>, flag: Json)
    ensures Update(id, values, flag).path == Retrieve(id, Null).path <==> id == "#{id}"
  {
    var p := "templates/";
    if p + id == p + "#{id}" {
      assert (p + id)[|p|..] == id;
      assert (p + "#{id}")[|p|..] == "#{id}";
    }
  }

  /**
   * `preview` addresses the preview of the template `retrieve` reads only
   * for the one id spelled `#{id}`.
   */
  lemma PreviewMissesItsTemplate(id: string, substitutions: map<string, Json>, draft: Json)
    ensures Preview(id, substitutions, draft).path == Retrieve(id, Null).path + "/preview" <==> id == "#{id}"
  {
    var p := "templates/";
    var q := "/preview";
    if p + id + q == p + "#{id}" + q {
      assert (p + id + q)[|p|..|p| + |id|] == id;
      assert (p + "#{id}" + q)[|p|..|p| + 5] == "#{id}";
    }
  }

  /**
   * Through the client: `update` always sends its query, even with the
   * default flag; `retrieve` sends one only when a draft flag is given.
   */
  lemma AssembledTemplateRequests(c: ClientCore.Client, id: string, values: map<string, Json>, draft: Json)
    ensures c.Assemble(Update(id, values, UPDATE_PUBLISHED_DEFAULT)).query == Some(map["update_published" := Bool(false)])
    ensures c.Assemble(Retrieve(id, draft)).query.None? <==> draft.Null?
    ensures c.Assemble(Retrieve(id, draft)).path == c.basePath + "templates/" + id
    ensures c.Assemble(Delete(id)).body.None? && c.Assemble(Delete(id)).query.None?
  {
    assert "update_published" in Update(id, values, UPDATE_PUBLISHED_DEFAULT).query;
  }

  /**
   * The evidently intended `update`: the id interpolated into the path, so
   * it addresses the template `retrieve` reads and distinct ids stay apart.
   */
  function UpdateInterpolated(id: string, values: map<string, Json>, updatePublished: Json): (r: RequestSpec)
    ensures r.path == Retrieve(id, Null).path
    ensures r.verb == Put && r.body == values
    ensures r.query.Keys == {"update_published"} && r.query["update_published"] == updatePublished
  {
    RequestSpec(Put, "templates/" + id, values, map["update_published" := updatePublished])
  }

  /** The evidently intended `preview`: the path of the template's own preview. */
  function PreviewInterpolated(id: string, substitutions: map<string, Json>, draft: Json): (r: RequestSpec)
    ensures r.path == Retrieve(id, Null).path + "/preview"
    ensures r.verb == Post && r.body == substitutions
    ensures r.query == map[] <==> draft.Null?
    ensures !draft.Null? ==> r.query == map["draft" := draft]
  {
    RequestSpec(Post, "templates/" + id + "/preview", substitutions, OptionalQuery("draft", draft))
  }

  /** With the id interpolated, two ids share an update or preview path only when they are equal. */
  lemma InterpolatedPathsSeparateIds(a: string, b: string, values: map<string, Json>, flag: Json, draft: Json)
    ensures UpdateInterpolated(a, values, flag).path == UpdateInterpolated(b, values, flag).path <==> a == b
    ensures PreviewInterpolated(a, values, draft).path == PreviewInterpolated(b, values, draft).path <==> a == b
  {
    var p := "templates/";
    if p + a == p + b {
      assert (p + a)[|p|..] == a;
      assert (p + b)[|p|..] == b;
    }
    var q := "/preview";
    if p + a + q == p + b + q {
      assert (p + a + q)[|p|..|p| + |a|] == a;
      assert (p + b + q)[|p|..|p| + |b|] == b;
    }
  }

  /**
   * Each call site passes its arguments positionally, as many as its request
   * needs, so `call` receives the whole request.
   */
  lemma CallSitesBind(id: string, values: map<string, Json>, flag: Json, draft: Json)
    ensures ClientCore.Carries(CallSite(2, {}), List())
    ensures ClientCore.Carries(CallSite(3, {}), Create(values))
    ensures ClientCore.Carries(CallSite(4, {}), Retrieve(id, draft))
    ensures ClientCore.Carries(CallSite(4, {}), Update(id, values, flag))
    ensures ClientCore.Carries(CallSite(4, {}), Preview(id, values, draft))
    ensures ClientCore.Carries(CallSite(2, {}), Delete(id))
  {
  }
}
