/**
 * What a resource method hands to the client: a verb, a path relative to the
 * base path, a body Hash and a query Hash.
 */
module Requests {
  import opened Wrappers
  import opened JsonValue

  /** The four verbs `Client#call` accepts. */
  datatype Verb = Get | Post | Put | Delete

  /**
   * The first argument of `Client#call` as Ruby sees it: a Symbol such as
   * `:get`, or any other value (a String, a Hash, nil), shown by its text.
   */
  datatype MethodArg = Sym(name: string) | NotSymbol(text: string)

  /** The request description a resource method produces. */
  datatype RequestSpec = RequestSpec(
    verb: Verb,
    path: string,
    body: map<string, Json>,
    query: map<string, Json>)

  /**
   * The shape of the argument list a call site passes to `Client#call`: the
   * number of positional arguments and the names of the keyword arguments.
   * `call(:get, 'x', {}, q)` is `CallSite(4, {})`;
   * `call(method: :get, path: 'x')` is `CallSite(0, {"method", "path"})`.
   */
  datatype CallSite = CallSite(positional: nat, keywords: set<string>)

  /** The Symbol a resource method passes for a verb. */
  function SymbolOf(v: Verb): (m: MethodArg)
    ensures m.Sym?
  {
    match v
    case Get => Sym("get")
    case Post => Sym("post")
    case Put => Sym("put")
    case Delete => Sym("delete")
  }

  lemma SymbolOfInjective(v: Verb, w: Verb)
    ensures SymbolOf(v) == SymbolOf(w) <==> v == w
  {
  }

  /** A GET, POST, PUT or DELETE with neither body nor query. */
  function Bare(verb: Verb, path: string): (r: RequestSpec)
    ensures r.verb == verb && r.path == path && r.body == map[] && r.query == map[]
  {
    RequestSpec(verb, path, map[], map[])
  }

  /**
   * The query Hash holding just `key`, or empty when the value is nil, that several resource methods
   * build from an optional argument.
   */
  function OptionalQuery(key: string, x: Json): (q: map<string, Json>)
    ensures q == map[] <==> x.Null?
    ensures !x.Null? ==> q.Keys == {key} && q[key] == x
  {
    if x.Null? then map[]
    else
      var q := map[key := x];
      assert key in q;
      q
  }

  /** The part of a path before its first `?`. */
  function PathPart(p: string): (r: string)
    ensures |r| <= |p| && r == p[..|r|]
    ensures '?' !in r
  {
    if |p| == 0 || p[0] == '?' then "" else [p[0]] + PathPart(p[1..])
  }

  /** The text after the first `?` of a path, if it has one. */
  function QueryPart(p: string): Option<string> {
    if |p| == 0 then None
    else if p[0] == '?' then Some(p[1..])
    else QueryPart(p[1..])
  }

  /** A path with no `?` of its own, glued to a query string, splits back into the two. */
  lemma {:induction false} SplitAtQuery(path: string, query: string)
    requires '?' !in path
    ensures PathPart(path + "?" + query) == path
    ensures QueryPart(path + "?" + query) == Some(query)
  {
    var p := path + "?" + query;
    if |path| == 0 {
      assert p == "?" + query;
      assert p[1..] == query;
    } else {
      assert p[0] == path[0];
      assert p[1..] == path[1..] + "?" + query;
      SplitAtQuery(path[1..], query);
      assert [path[0]] + path[1..] == path;
    }
  }

  /** A path with no `?` has no query string. */
  lemma {:induction false} NoQueryPart(path: string)
    requires '?' !in path
    ensures PathPart(path) == path && QueryPart(path) == None
  {
    if |path| > 0 {
      NoQueryPart(path[1..]);
      assert [path[0]] + path[1..] == path;
    }
  }
}
