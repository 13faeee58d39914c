/** The API client (composables/useApi.ts): how `apiFetch` turns an endpoint and the caller's
    options into the URL and the options handed to the HTTP transport. The transport itself
    (`$fetch`) is a parameter. */
module Api {
  import opened Wrappers
  import opened Types

  datatype HttpMethod = GET | POST | PUT | DELETE | PATCH | HEAD | OPTIONS

  type Headers = map<string, string>
  type Query = map<string, string>

  /** The caller's options; `None` is a field the caller left undefined. The source's `method`
      field is `httpMethod` here, `method` being a Dafny keyword. */
  datatype ApiFetchOptions<B> = ApiFetchOptions(
    httpMethod: Option<HttpMethod>,
    body: Option<B>,
    headers: Option<Headers>,
    query: Option<Query>)

  /** What `apiFetch` hands to the transport: `headers` is always there, the other fields only
      when the caller supplied them. */
  datatype FetchOptions<B> = FetchOptions(
    headers: Headers,
    httpMethod: Option<HttpMethod>,
    body: Option<B>,
    query: Option<Query>)

  datatype FetchRequest<B> = FetchRequest(url: string, options: FetchOptions<B>)

  /** A failed request: the transport error, with the response payload when there was one. */
  datatype FetchError = FetchError(data: Option<AuthError>)

  /** The outcome of one request. */
  datatype Reply<T> = Ok(value: T) | Fail(error: FetchError)

  const ContentType := "Content-Type"
  const JsonContentType := "application/json"
  const Authorization := "Authorization"
  const BearerPrefix := "Bearer "

  /** The options argument's default `{}`. */
  function NoOptions<B>(): (o: ApiFetchOptions<B>)
    ensures o.httpMethod.None? && o.body.None? && o.headers.None? && o.query.None?
  {
    ApiFetchOptions(None, None, None, None)
  }

  /** JavaScript truthiness of a `string | null`: the falsy values are null and the empty
      string. */
  predicate Truthy(token: Option<string>)
    ensures Truthy(token) <==> token != None && token != Some("")
  {
    token.Some? && token.value != ""
  }

  /** The request headers: a JSON Content-Type that the caller's headers may override, then an
      Authorization header built from a truthy token that overrides the caller's. */
  function BuildHeaders(token: Option<string>, caller: Option<Headers>): (h: Headers)
    ensures var c := caller.GetOr(map[]);
      && ContentType in h
      && h[ContentType] == (if ContentType in c then c[ContentType] else JsonContentType)
      && (Truthy(token) ==> Authorization in h && h[Authorization] == BearerPrefix + token.value)
      && (!Truthy(token) ==> (Authorization in h <==> Authorization in c))
      && (!Truthy(token) && Authorization in c ==> h[Authorization] == c[Authorization])
      && (forall k :: k in h && k != ContentType && k != Authorization ==> k in c && h[k] == c[k])
      && (forall k :: k in c ==> k in h)
  {
    var merged := map[ContentType := JsonContentType] + caller.GetOr(map[]);
    if Truthy(token) then merged[Authorization := BearerPrefix + token.value] else merged
  }

  /** The transport options: the caller's method, body and query are copied exactly when they
      are defined. */
  function BuildFetchOptions<B>(token: Option<string>, options: ApiFetchOptions<B>): (f: FetchOptions<B>)
    ensures f.headers == BuildHeaders(token, options.headers)
    ensures f.httpMethod.Some? <==> options.httpMethod.Some?
    ensures f.body.Some? <==> options.body.Some?
    ensures f.query.Some? <==> options.query.Some?
    ensures f.httpMethod.Some? ==> f.httpMethod == options.httpMethod
    ensures f.body.Some? ==> f.body == options.body
    ensures f.query.Some? ==> f.query == options.query
  {
    var f := FetchOptions(BuildHeaders(token, options.headers), None, None, None);
    var f := if options.httpMethod.Some? then f.(httpMethod := options.httpMethod) else f;
    var f := if options.body.Some? then f.(body := options.body) else f;
    if options.query.Some? then f.(query := options.query) else f
  }

  /** The request `apiFetch` sends for `endpoint`, given the token it read from the token store. */
  function PrepareFetch<B>(apiBase: string, token: Option<string>, endpoint: string, options: ApiFetchOptions<B>): (r: FetchRequest<B>)
    ensures |r.url| == |apiBase| + |endpoint|
    ensures r.url[..|apiBase|] == apiBase && r.url[|apiBase|..] == endpoint
    ensures r.options == BuildFetchOptions(token, options)
  {
    FetchRequest(apiBase + endpoint, BuildFetchOptions(token, options))
  }

  /** `apiFetch`: the transport's reply to the request for the concatenated URL, with the
      built headers and the caller's method, body and query, passed back untouched. */
  function ApiFetch<B, T>(apiBase: string, token: Option<string>, endpoint: string, options: ApiFetchOptions<B>,
                          transport: FetchRequest<B> -> Reply<T>): (r: Reply<T>)
    ensures r == transport(FetchRequest(apiBase + endpoint,
      FetchOptions(BuildHeaders(token, options.headers), options.httpMethod, options.body, options.query)))
  {
    transport(PrepareFetch(apiBase, token, endpoint, options))
  }

  /** Without a truthy token the headers are the caller's plus the default Content-Type. */
  lemma NoTokenNoExtraAuthorization(token: Option<string>, caller: Option<Headers>)
    requires !Truthy(token)
    ensures var c := caller.GetOr(map[]);
      BuildHeaders(token, caller).Keys == c.Keys + {ContentType}
  {
  }

  /** With a truthy token the header set gains exactly Content-Type and Authorization. */
  lemma TokenAddsAuthorization(token: Option<string>, caller: Option<Headers>)
    requires Truthy(token)
    ensures var c := caller.GetOr(map[]);
      BuildHeaders(token, caller).Keys == c.Keys + {ContentType, Authorization}
  {
  }
}
