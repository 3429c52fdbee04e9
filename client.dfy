/**
 * `SimpleSpark::Client` (lib/simple_spark/client.rb): configuration
 * resolution, the verb check and request assembly of `call`, the default
 * headers and response normalisation. The HTTP transport is a function
 * parameter from the assembled request to the status and parsed body.
 */
module ClientCore {
  import opened Wrappers
  import opened JsonValue
  import opened Requests
  import opened Exceptions

  const DEFAULT_HOST := "https://api.sparkpost.com"
  const DEFAULT_BASE_PATH := "/api/v1/"
  const API_KEY_VARIABLE := "SPARKPOST_API_KEY"
  const MISSING_KEY := "You must provide a SparkPost API key"
  const MISSING_HOST := "You must provide a SparkPost API host"
  const MISSING_BASE_PATH := "You must provide a SparkPost base path"
  const UNSUPPORTED_METHOD := "Only GET, POST, PUT and DELETE are supported"

  /** `SimpleSpark::VERSION`, defined in a file outside this model; its value is left open. */
  const VERSION: string

  /** The resolved configuration a client keeps: `@api_key`, `@api_host`, `@base_path`, `@debug`. */
  datatype Settings = Settings(apiKey: string, apiHost: string, basePath: string, debug: bool)

  /** A JSON document produced by `to_json` from a body Hash; the encoder itself is not modelled. */
  datatype JsonText = Encoded(value: map<string, Json>)

  /** The `params` Hash handed to the transport, together with the verb. */
  datatype Request = Request(
    verb: Verb,
    path: string,
    headers: map<string, string>,
    body: Option<JsonText>,
    query: Option<map<string, Json>>)

  /**
   * The two keys of the parsed response body that `process_response` reads:
   * `errors` (None when absent, nil or false) and `results` (Null when absent).
   */
  datatype ParsedBody = ParsedBody(errors: Option<seq<ErrorItem>>, results: Json)

  datatype Response = Response(status: int, body: ParsedBody)

  /** The positional arguments `call(method, path, body_values, query_params)` receives. */
  datatype CallArgs = CallArgs(verb: MethodArg, path: string, bodyValues: map<string, Json>, queryParams: map<string, Json>)

  function EnvGet(env: map<string, string>, name: string): Option<string> {
    if name in env then Some(env[name]) else None
  }

  /**
   * `initialize(api_key, api_host, base_path, debug)`: the key is the
   * argument, else the environment's SPARKPOST_API_KEY; host and base path
   * fall back to their defaults when nil. Only the key can be missing: the
   * host and base-path checks follow a default and never fire.
   */
  function Resolve(apiKey: Option<string>, env: map<string, string>, apiHost: Option<string>,
                   basePath: Option<string>, debug: bool): (r: Result<Settings, ApiError>)
    ensures r.Failure? <==> apiKey.None? && API_KEY_VARIABLE !in env
    ensures r.Failure? ==> r.error == ApiError(InvalidConfiguration, NoObject, MISSING_KEY)
    ensures r.Success? && apiKey.Some? ==> r.value.apiKey == apiKey.value
    ensures r.Success? && apiKey.None? ==> r.value.apiKey == env[API_KEY_VARIABLE]
    ensures r.Success? ==> r.value.apiHost == (if apiHost.Some? then apiHost.value else DEFAULT_HOST)
    ensures r.Success? ==> r.value.basePath == (if basePath.Some? then basePath.value else DEFAULT_BASE_PATH)
    ensures r.Success? ==> r.value.debug == debug
  {
    var key := if apiKey.Some? then apiKey else EnvGet(env, API_KEY_VARIABLE);
    var host := if apiHost.Some? then apiHost else Some(DEFAULT_HOST);
    var base := if basePath.Some? then basePath else Some(DEFAULT_BASE_PATH);
    if key.None? then Failure(ApiError(InvalidConfiguration, NoObject, MISSING_KEY))
    else if host.None? then Failure(ApiError(InvalidConfiguration, NoObject, MISSING_HOST))
    else if base.None? then Failure(ApiError(InvalidConfiguration, NoObject, MISSING_BASE_PATH))
    else Success(Settings(key.value, host.value, base.value, debug))
  }

  /**
   * The environment is consulted for the key only: once a key is given,
   * no variable (SPARKPOST_API_HOST included) changes the configuration.
   */
  lemma EnvironmentOnlySuppliesKey(apiKey: Option<string>, env1: map<string, string>, env2: map<string, string>,
                                   apiHost: Option<string>, basePath: Option<string>, debug: bool)
    requires apiKey.Some? || EnvGet(env1, API_KEY_VARIABLE) == EnvGet(env2, API_KEY_VARIABLE)
    ensures Resolve(apiKey, env1, apiHost, basePath, debug) == Resolve(apiKey, env2, apiHost, basePath, debug)
  {
  }

  /** The situation of spec/simple_spark/client_spec.rb:24-27: the host variable is ignored. */
  lemma ClientSpecHostExample()
    ensures var r := Resolve(Some("mykey"), map["SPARKPOST_API_HOST" := "http://www.myhost.com"], None, None, false);
      && r.Success?
      && r.value.apiHost == DEFAULT_HOST
      && r.value.apiHost != "http://www.myhost.com"
  {
  }

  /**
   * The verb check of `call`: only the Symbols `:get`, `:post`, `:put` and
   * `:delete` pass; anything else raises InvalidConfiguration carrying
   * `{ method: m }`.
   */
  function CheckMethod(m: MethodArg): (r: Result<Verb, ApiError>)
    ensures r.Success? <==> m in {Sym("get"), Sym("post"), Sym("put"), Sym("delete")}
    ensures r.Success? ==> SymbolOf(r.value) == m
    ensures r.Failure? ==> r.error == ApiError(InvalidConfiguration, MethodObject(m), UNSUPPORTED_METHOD)
  {
    if m == Sym("get") then Success(Get)
    else if m == Sym("post") then Success(Post)
    else if m == Sym("put") then Success(Put)
    else if m == Sym("delete") then Success(Delete)
    else Failure(ApiError(InvalidConfiguration, MethodObject(m), UNSUPPORTED_METHOD))
  }

  /** The Symbol a resource method passes is accepted as its own verb. */
  lemma CheckMethodOfSymbol(v: Verb)
    ensures CheckMethod(SymbolOf(v)) == Success(v)
  {
  }

  /** `:patch`, and the String "get" rather than the Symbol, are refused. */
  lemma UnsupportedMethodExamples()
    ensures CheckMethod(Sym("patch")).Failure?
    ensures CheckMethod(NotSymbol("get")).Failure?
    ensures CheckMethod(Sym("patch")).error.payload == MethodObject(Sym("patch"))
  {
  }

  /**
   * `process_response`: 204 is `true` whatever the body; otherwise an
   * `errors` entry raises the error its status is classified as; otherwise
   * `results` when truthy, else `true`.
   */
  function ProcessResponse(resp: Response): (r: Result<Json, ApiError>)
    ensures resp.status == 204 ==> r == Success(Bool(true))
    ensures r.Failure? <==> resp.status != 204 && resp.body.errors.Some?
    ensures r.Failure? ==> r.error == FailWithExceptionForStatus(resp.status, resp.body.errors.value)
    ensures r.Failure? ==> r.error.kind != InvalidConfiguration
    ensures r.Success? ==> Truthy(r.value)
    ensures r.Success? && resp.status != 204 && Truthy(resp.body.results) ==> r.value == resp.body.results
    ensures r.Success? && !Truthy(resp.body.results) ==> r.value == Bool(true)
  {
    if resp.status == 204 then Success(Bool(true))
    else if resp.body.errors.Some? then Failure(FailWithExceptionForStatus(resp.status, resp.body.errors.value))
    else if Truthy(resp.body.results) then Success(resp.body.results)
    else Success(Bool(true))
  }

  /**
   * Throttling and server failures: 420 raises ThrottleLimitExceeded, while
   * 429 and 500 fall back to UnprocessableEntity.
   */
  lemma ErrorStatusExamples(errors: seq<ErrorItem>)
    ensures ProcessResponse(Response(420, ParsedBody(Some(errors), Null))).error.kind == ThrottleLimitExceeded
    ensures ProcessResponse(Response(429, ParsedBody(Some(errors), Null))).error.kind == UnprocessableEntity
    ensures ProcessResponse(Response(500, ParsedBody(Some(errors), Null))).error.kind == UnprocessableEntity
    ensures ProcessResponse(Response(400, ParsedBody(Some(errors), Null))).error.kind == BadRequest
    ensures ProcessResponse(Response(404, ParsedBody(Some(errors), Null))).error.kind == NotFound
  {
  }

  /** `call(method, path, body_values = {}, query_params = {})`: two required, two optional. */
  const REQUIRED_ARGUMENTS := 2
  const MAX_ARGUMENTS := 4

  /**
   * The number of positional arguments `call` receives. `call` declares no
   * keyword parameters, so Ruby gathers any keyword arguments into one
   * trailing positional Hash.
   */
  function Arity(site: CallSite): nat {
    site.positional + (if site.keywords == {} then 0 else 1)
  }

  /**
   * How Ruby binds a call site's arguments to `call`: an arity outside two
   * to four raises ArgumentError before `call` runs; otherwise the verb and
   * path are the first two arguments, and body and query are the next ones
   * or their default `{}`.
   */
  function Bind(site: CallSite, spec: RequestSpec): (r: Option<CallArgs>)
    ensures r.Some? <==> REQUIRED_ARGUMENTS <= Arity(site) <= MAX_ARGUMENTS
    ensures r.Some? ==> CheckMethod(r.value.verb) == Success(spec.verb) && r.value.path == spec.path
    ensures r.Some? ==> r.value.bodyValues == (if Arity(site) >= 3 then spec.body else map[])
    ensures r.Some? ==> r.value.queryParams == (if Arity(site) == 4 then spec.query else map[])
  {
    var n := Arity(site);
    if n < REQUIRED_ARGUMENTS || n > MAX_ARGUMENTS then None
    else
      CheckMethodOfSymbol(spec.verb);
      Some(CallArgs(
        SymbolOf(spec.verb),
        spec.path,
        if n >= 3 then spec.body else map[],
        if n == 4 then spec.query else map[]))
  }

  /** The call site hands `call` the whole request: verb, path, body and query. */
  predicate Carries(site: CallSite, spec: RequestSpec) {
    Bind(site, spec) == Some(CallArgs(SymbolOf(spec.verb), spec.path, spec.body, spec.query))
  }

  /**
   * A call site that passes keywords only gives `call` a single Hash where
   * two arguments are required: it never binds, whatever it describes.
   */
  lemma KeywordCallsNeverBind(keywords: set<string>, spec: RequestSpec)
    ensures Bind(CallSite(0, keywords), spec) == None
  {
  }

  class Client {
    const apiKey: string
    const apiHost: string
    const basePath: string
    const debug: bool

    constructor (s: Settings)
      ensures Config() == s
    {
      apiKey := s.apiKey;
      apiHost := s.apiHost;
      basePath := s.basePath;
      debug := s.debug;
    }

    function Config(): Settings {
      Settings(apiKey, apiHost, basePath, debug)
    }

    /**
     * `Client.new(api_key, api_host, base_path, debug)` with the
     * environment passed in. Failing construction returns the error raised.
     */
    static method New(apiKey: Option<string>, env: map<string, string>, apiHost: Option<string>,
                      basePath: Option<string>, debug: bool) returns (r: Result<Client, ApiError>)
      ensures r.Failure? ==> Resolve(apiKey, env, apiHost, basePath, debug) == Failure(r.error)
      ensures r.Success? ==> fresh(r.value) && Resolve(apiKey, env, apiHost, basePath, debug) == Success(r.value.Config())
    {
      var key := apiKey;
      if key.None? {
        key := EnvGet(env, API_KEY_VARIABLE);
      }
      var host := if apiHost.Some? then apiHost.value else DEFAULT_HOST;
      var base := if basePath.Some? then basePath.value else DEFAULT_BASE_PATH;
      if key.None? {
        return Failure(ApiError(InvalidConfiguration, NoObject, MISSING_KEY));
      }
      var c := new Client(Settings(key.value, host, base, debug));
      return Success(c);
    }

    /** `default_headers`: exactly the user agent, the JSON content type and the raw API key. */
    function DefaultHeaders(): (h: map<string, string>)
      ensures h.Keys == {"User-Agent", "Content-Type", "Authorization"}
      ensures h["User-Agent"] == "simple_spark/" + VERSION
      ensures h["Content-Type"] == "application/json"
      ensures h["Authorization"] == apiKey
    {
      map[
        "User-Agent" := "simple_spark/" + VERSION,
        "Content-Type" := "application/json",
        "Authorization" := apiKey
      ]
    }

    /**
     * The request `call` builds: the base path glued to the path with no
     * slash handling, the default headers, a body only when the body Hash is
     * non-empty and a query only when the query Hash is non-empty.
     */
    function Assemble(spec: RequestSpec): (req: Request)
      ensures req.verb == spec.verb
      ensures req.path == basePath + spec.path
      ensures req.headers == DefaultHeaders()
      ensures req.body.Some? <==> |spec.body| > 0
      ensures req.body.Some? ==> req.body.value == Encoded(spec.body)
      ensures req.query.Some? <==> |spec.query| > 0
      ensures req.query.Some? ==> req.query.value == spec.query
    {
      Request(
        spec.verb,
        basePath + spec.path,
        DefaultHeaders(),
        if |spec.body| == 0 then None else Some(Encoded(spec.body)),
        if |spec.query| == 0 then None else Some(spec.query))
    }

    /** Reads the request description back from an assembled request. */
    function Disassemble(req: Request): Option<RequestSpec> {
      if |basePath| <= |req.path| && req.path[..|basePath|] == basePath then
        Some(RequestSpec(
          req.verb,
          req.path[|basePath|..],
          if req.body.Some? then req.body.value.value else map[],
          if req.query.Some? then req.query.value else map[]))
      else None
    }

    /**
     * Leaving out an empty body or query loses nothing: the assembled
     * request determines the description it came from.
     */
    lemma DisassembleAssemble(spec: RequestSpec)
      ensures Disassemble(Assemble(spec)) == Some(spec)
    {
      var req := Assemble(spec);
      assert req.path[..|basePath|] == basePath;
      assert req.path[|basePath|..] == spec.path;
      if req.body.None? {
        assert spec.body == map[];
      }
      if req.query.None? {
        assert spec.query == map[];
      }
    }

    /**
     * `call(method, path, body_values, query_params)`: an unsupported verb
     * raises before anything is built or sent; otherwise the assembled
     * request is sent once and its response normalised.
     */
    method Call(m: MethodArg, path: string, bodyValues: map<string, Json>, queryParams: map<string, Json>,
                send: Request -> Response) returns (sent: Option<Request>, r: Result<Json, ApiError>)
      ensures CheckMethod(m).Failure? ==> sent == None && r == Failure(CheckMethod(m).error)
      ensures CheckMethod(m).Success? ==>
        sent == Some(Assemble(RequestSpec(CheckMethod(m).value, path, bodyValues, queryParams)))
      ensures sent.Some? ==> r == ProcessResponse(send(sent.value))
    {
      var verb := CheckMethod(m);
      if verb.Failure? {
        return None, Failure(verb.error);
      }
      var fullPath := basePath + path;
      var headers := DefaultHeaders();
      var body: Option<JsonText> := None;
      if |bodyValues| != 0 {
        body := Some(Encoded(bodyValues));
      }
      var query: Option<map<string, Json>> := None;
      if |queryParams| != 0 {
        query := Some(queryParams);
      }
      var req := Request(verb.value, fullPath, headers, body, query);
      sent := Some(req);
      r := ProcessResponse(send(req));
    }

    /**
     * A resource method's request, sent through `call` whatever convention
     * its call site uses: the dispatch a keyword-style call site intends.
     */
    method Submit(spec: RequestSpec, send: Request -> Response) returns (sent: Option<Request>, r: Result<Json, ApiError>)
      ensures sent == Some(Assemble(spec))
      ensures r == ProcessResponse(send(Assemble(spec)))
    {
      CheckMethodOfSymbol(spec.verb);
      sent, r := Call(SymbolOf(spec.verb), spec.path, spec.body, spec.query, send);
    }
  }
}
