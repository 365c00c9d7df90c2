/** Construction of the current client from its configuration (src/pinecone/mod.rs):
    each setting is taken from the argument, else the environment, else a default; the
    API-version header is added unless some casing of it is already present. */
module Client {
  import opened Wrappers
  import opened Text
  import opened Errors
  import opened UserAgent
  import opened Environment

  /** `PINECONE_API_VERSION_KEY` */
  const ApiVersionKey: string := "X-Pinecone-Api-Version"

  const ApiKeyMissingMessage: string := "API key is not provided as an argument nor as an environment variable"
  const HeadersNotJsonMessage: string := "Provided headers are not valid. Expects JSON."
  const HeadersInvalidMessage: string := "Provided headers are not valid"

  /** `PineconeClientConfig`; its `Default` leaves every field unset. */
  datatype PineconeClientConfig = PineconeClientConfig(
    apiKey: Option<string>,
    controlPlaneHost: Option<string>,
    additionalHeaders: Option<Headers>,
    sourceTag: Option<string>)

  /** The generated client's API-key setting. */
  datatype ApiKey = ApiKey(prefix: Option<string>, key: string)

  /** An HTTP client, described by the default headers it sends with every request. */
  datatype HttpClient = HttpClient(defaultHeaders: Headers)

  /** The generated client's `Configuration`, restricted to the fields the SDK sets. */
  datatype Configuration = Configuration(
    basePath: string,
    userAgent: Option<string>,
    apiKey: Option<ApiKey>,
    client: HttpClient)

  datatype PineconeClient = PineconeClient(
    apiKey: string,
    controllerUrl: string,
    additionalHeaders: Headers,
    sourceTag: Option<string>,
    userAgent: Option<string>,
    openapiConfig: Configuration)

  /** The conversion of a header map into reqwest's `HeaderMap`, `None` when a name or value
      is not a valid header. A parameter: reqwest's validation is not modelled. */
  type HeaderMapConversion = Headers -> Option<Headers>

  /** `reqwest::Client::builder().default_headers(h).build()`: the client, or the error text. */
  type ClientBuilder = Headers -> Result<HttpClient, string>

  /** Some key equals the version key, ignoring ASCII case. */
  predicate HasApiVersionHeader(h: Headers) {
    exists k :: k in h && EqIgnoreAsciiCase(k, ApiVersionKey)
  }

  /** `add_api_version_header`: insert the version key with the given version. */
  function AddApiVersionHeader(headers: Headers, apiVersion: string): (r: Headers)
    ensures r.Keys == headers.Keys + {ApiVersionKey}
    ensures r[ApiVersionKey] == apiVersion
    ensures forall k :: k in headers && k != ApiVersionKey ==> r[k] == headers[k]
  {
    headers[ApiVersionKey := apiVersion]
  }

  /** The headers after the conditional insertion of `client()`. */
  function WithApiVersion(headers: Headers, apiVersion: string): (r: Headers)
    ensures HasApiVersionHeader(r)
    ensures forall k :: k in headers ==> k in r && (HasApiVersionHeader(headers) || k != ApiVersionKey ==> r[k] == headers[k])
    ensures r.Keys <= headers.Keys + {ApiVersionKey}
  {
    if HasApiVersionHeader(headers) then headers
    else
      var r := AddApiVersionHeader(headers, apiVersion);
      assert EqIgnoreAsciiCase(ApiVersionKey, ApiVersionKey);
      assert ApiVersionKey in r;
      r
  }

  /** `PineconeClientConfig::client`. The environment, the JSON decoder, reqwest's header
      conversion and client builder, and the crate's API version are parameters. */
  function Client(config: PineconeClientConfig, env: Env, parse: JsonParser,
                  toHeaderMap: HeaderMapConversion, build: ClientBuilder, apiVersion: string)
    : (r: Result<PineconeClient, PineconeError>)
    ensures r.Failure? && r.error.APIKeyMissingError? <==> config.apiKey.None? && ApiKeyVar !in env
    ensures r.Success? <==>
      && ResolveApiKey(config.apiKey, env).Some?
      && EagerHeaders(config.additionalHeaders, env, parse).Success?
      && toHeaderMap(WithApiVersion(EagerHeaders(config.additionalHeaders, env, parse).value, apiVersion)).Some?
      && build(toHeaderMap(WithApiVersion(EagerHeaders(config.additionalHeaders, env, parse).value, apiVersion)).value).Success?
    ensures ResolveApiKey(config.apiKey, env).Some? && EagerHeaders(config.additionalHeaders, env, parse).Failure? ==>
      r == Failure(InvalidHeadersError(HeadersNotJsonMessage))
    ensures ResolveApiKey(config.apiKey, env).Some? && EagerHeaders(config.additionalHeaders, env, parse).Success? ==>
      var sent := toHeaderMap(WithApiVersion(EagerHeaders(config.additionalHeaders, env, parse).value, apiVersion));
      && (sent.None? ==> r == Failure(InvalidHeadersError(HeadersInvalidMessage)))
      && (sent.Some? && build(sent.value).Failure? ==> r == Failure(ReqwestError(build(sent.value).error)))
    ensures r.Success? ==>
      && ResolveApiKey(config.apiKey, env) == Some(r.value.apiKey)
      && r.value.controllerUrl == ResolveControllerHost(config.controlPlaneHost, env)
      && r.value.openapiConfig.basePath == r.value.controllerUrl
      && r.value.openapiConfig.apiKey == Some(ApiKey(None, r.value.apiKey))
      && r.value.userAgent == r.value.openapiConfig.userAgent == Some(UserAgentFor(config.sourceTag))
      && r.value.sourceTag == config.sourceTag
      && HasApiVersionHeader(r.value.additionalHeaders)
  {
    match ResolveApiKey(config.apiKey, env)
    case None => Failure(APIKeyMissingError(ApiKeyMissingMessage))
    case Some(apiKey) =>
      var controllerHost := ResolveControllerHost(config.controlPlaneHost, env);
      var userAgent := UserAgentFor(config.sourceTag);
      match EagerHeaders(config.additionalHeaders, env, parse)
      case Failure(_) => Failure(InvalidHeadersError(HeadersNotJsonMessage))
      case Success(resolved) =>
        var additionalHeaders := WithApiVersion(resolved, apiVersion);
        match toHeaderMap(additionalHeaders)
        case None => Failure(InvalidHeadersError(HeadersInvalidMessage))
        case Some(headerMap) =>
          match build(headerMap)
          case Failure(e) => Failure(ReqwestError(e))
          case Success(http) =>
            var openapiConfig := Configuration(controllerHost, Some(userAgent), Some(ApiKey(None, apiKey)), http);
            Success(PineconeClient(apiKey, controllerHost, additionalHeaders, config.sourceTag, Some(userAgent), openapiConfig))
  }

  /** An explicit API key is used whatever the environment holds; the environment's key is
      used only when the argument is absent. */
  lemma ExplicitKeyWins(config: PineconeClientConfig, env: Env, parse: JsonParser,
                        toHeaderMap: HeaderMapConversion, build: ClientBuilder, apiVersion: string)
    ensures var r := Client(config, env, parse, toHeaderMap, build, apiVersion);
      && (config.apiKey.Some? && r.Success? ==> r.value.apiKey == config.apiKey.value)
      && (config.apiKey.None? && r.Success? ==> r.value.apiKey == env[ApiKeyVar])
  {
  }

  /** Without a key from either source construction fails with `APIKeyMissingError` and its
      message, before anything else is looked at. */
  lemma MissingKeyFails(config: PineconeClientConfig, env: Env, parse: JsonParser,
                        toHeaderMap: HeaderMapConversion, build: ClientBuilder, apiVersion: string)
    requires config.apiKey.None? && ApiKeyVar !in env
    ensures Client(config, env, parse, toHeaderMap, build, apiVersion) == Failure(APIKeyMissingError(ApiKeyMissingMessage))
  {
  }

  /** An environment variable that does not decode as JSON fails construction even when
      headers are passed as an argument, because the fallback is evaluated first. */
  lemma UndecodableEnvHeadersFail(config: PineconeClientConfig, env: Env, parse: JsonParser,
                                  toHeaderMap: HeaderMapConversion, build: ClientBuilder, apiVersion: string)
    requires ResolveApiKey(config.apiKey, env).Some?
    requires AdditionalHeadersVar in env && parse(env[AdditionalHeadersVar]).Failure?
    ensures Client(config, env, parse, toHeaderMap, build, apiVersion) == Failure(InvalidHeadersError(HeadersNotJsonMessage))
  {
  }

  /** The stored headers are the resolved ones (argument, else environment JSON, else empty)
      with every entry kept; the version header is added, under `ApiVersionKey` and with the
      crate's version, exactly when no casing of it was present. */
  lemma StoredHeaders(config: PineconeClientConfig, env: Env, parse: JsonParser,
                      toHeaderMap: HeaderMapConversion, build: ClientBuilder, apiVersion: string)
    requires Client(config, env, parse, toHeaderMap, build, apiVersion).Success?
    ensures var stored := Client(config, env, parse, toHeaderMap, build, apiVersion).value.additionalHeaders;
      var resolved := EagerHeaders(config.additionalHeaders, env, parse).value;
      && EagerHeaders(config.additionalHeaders, env, parse).Success?
      && (config.additionalHeaders.Some? ==> resolved == config.additionalHeaders.value)
      && (HasApiVersionHeader(resolved) ==> stored == resolved)
      && (!HasApiVersionHeader(resolved) ==> stored == resolved[ApiVersionKey := apiVersion])
  {
  }

  /** The reqwest client is built from the stored headers. */
  lemma ClientSendsStoredHeaders(config: PineconeClientConfig, env: Env, parse: JsonParser,
                                 toHeaderMap: HeaderMapConversion, build: ClientBuilder, apiVersion: string)
    requires Client(config, env, parse, toHeaderMap, build, apiVersion).Success?
    ensures var c := Client(config, env, parse, toHeaderMap, build, apiVersion).value;
      && toHeaderMap(c.additionalHeaders).Some?
      && build(toHeaderMap(c.additionalHeaders).value) == Success(c.openapiConfig.client)
  {
  }

  /** With no headers anywhere the client sends exactly the version header. */
  lemma DefaultHeaders(config: PineconeClientConfig, env: Env, parse: JsonParser,
                       toHeaderMap: HeaderMapConversion, build: ClientBuilder, apiVersion: string)
    requires config.additionalHeaders.None? && AdditionalHeadersVar !in env
    requires Client(config, env, parse, toHeaderMap, build, apiVersion).Success?
    ensures Client(config, env, parse, toHeaderMap, build, apiVersion).value.additionalHeaders
         == map[ApiVersionKey := apiVersion]
  {
    var empty: Headers := map[];
    assert !HasApiVersionHeader(empty);
  }

  /** A version header given in lower case is kept with its value, and no second one is added. */
  lemma LowerCaseVersionKept(version: string, apiVersion: string)
    ensures WithApiVersion(map["x-pinecone-api-version" := version], apiVersion)
         == map["x-pinecone-api-version" := version]
  {
    AsciiLowerConcat("X-Pinecone", "-Api-Version");
    AsciiLowerConcat("x-pinecone", "-api-version");
    var h := map["x-pinecone-api-version" := version];
    assert EqIgnoreAsciiCase("x-pinecone-api-version", ApiVersionKey);
    assert "x-pinecone-api-version" in h;
  }
}
