/** The oldest client (pinecone_sdk/src/pinecone.rs): the same argument > environment >
    default resolution, but the environment headers are consulted only when no headers are
    given, and no version header is sent anywhere. */
module LegacyPinecone {
  import opened Wrappers
  import opened UserAgent
  import opened Environment
  import C = Client
  import Errors

  /** The errors construction can report in this revision. */
  datatype SdkError = APIKeyMissingError | InvalidHeadersError(jsonError: string)

  /** `Config` (pinecone_sdk/src/config.rs as used by this revision). */
  datatype Config = Config(apiKey: string, controllerUrl: string, additionalHeaders: Headers, sourceTag: Option<string>)

  datatype Pinecone = Pinecone(config: Config, openapiConfig: C.Configuration)

  /** `Pinecone::new`. The configuration takes the default HTTP client: no default headers. */
  function New(apiKey: Option<string>, controlPlaneHost: Option<string>, additionalHeaders: Option<Headers>,
               sourceTag: Option<string>, env: Env, parse: JsonParser): (r: Result<Pinecone, SdkError>)
    ensures r == Failure(APIKeyMissingError) <==> apiKey.None? && ApiKeyVar !in env
    ensures r.Failure? && r.error.InvalidHeadersError? <==>
      ResolveApiKey(apiKey, env).Some? && LazyHeaders(additionalHeaders, env, parse).Failure?
    ensures r.Failure? && r.error.InvalidHeadersError? ==> LazyHeaders(additionalHeaders, env, parse) == Failure(r.error.jsonError)
    ensures r.Success? ==>
      && ResolveApiKey(apiKey, env) == Some(r.value.config.apiKey)
      && r.value.config.controllerUrl == ResolveControllerHost(controlPlaneHost, env)
      && Success(r.value.config.additionalHeaders) == LazyHeaders(additionalHeaders, env, parse)
      && r.value.config.sourceTag == sourceTag
      && r.value.openapiConfig == C.Configuration(r.value.config.controllerUrl, Some(UserAgentFor(sourceTag)),
                                                  Some(C.ApiKey(None, r.value.config.apiKey)), C.HttpClient(map[]))
  {
    match ResolveApiKey(apiKey, env)
    case None => Failure(APIKeyMissingError)
    case Some(key) =>
      var controllerHost := ResolveControllerHost(controlPlaneHost, env);
      match LazyHeaders(additionalHeaders, env, parse)
      case Failure(jsonError) => Failure(InvalidHeadersError(jsonError))
      case Success(headers) =>
        var config := Config(key, controllerHost, headers, sourceTag);
        Success(Pinecone(config, C.Configuration(controllerHost, Some(UserAgentFor(sourceTag)), Some(C.ApiKey(None, key)), C.HttpClient(map[]))))
  }

  /** Explicit arguments override every environment variable, and then construction cannot
      fail, whatever the environment holds and whether or not it parses. */
  lemma ArgumentsOverrideEnvironment(key: string, host: string, headers: Headers, sourceTag: Option<string>,
                                     env: Env, parse: JsonParser)
    ensures var r := New(Some(key), Some(host), Some(headers), sourceTag, env, parse);
      && r.Success?
      && r.value.config == Config(key, host, headers, sourceTag)
      && r.value.openapiConfig.basePath == host
  {
  }

  /** With no explicit headers, the environment decides: no variable gives no headers, text
      the parser rejects is reported with the parser's error. */
  lemma EnvironmentHeaders(key: string, sourceTag: Option<string>, env: Env, parse: JsonParser)
    ensures AdditionalHeadersVar !in env ==>
      New(Some(key), None, None, sourceTag, env, parse).value.config.additionalHeaders == map[]
    ensures AdditionalHeadersVar in env && parse(env[AdditionalHeadersVar]).Failure? ==>
      New(Some(key), None, None, sourceTag, env, parse) == Failure(InvalidHeadersError(parse(env[AdditionalHeadersVar]).error))
    ensures AdditionalHeadersVar in env && parse(env[AdditionalHeadersVar]).Success? ==>
      New(Some(key), None, None, sourceTag, env, parse).value.config.additionalHeaders == parse(env[AdditionalHeadersVar]).value
  {
  }

  /** Unlike the later revisions, explicit headers shield construction from an environment
      variable that does not parse. */
  lemma ExplicitHeadersIgnoreBadEnvironment(key: string, headers: Headers, env: Env, parse: JsonParser)
    requires AdditionalHeadersVar in env && parse(env[AdditionalHeadersVar]).Failure?
    ensures New(Some(key), None, Some(headers), None, env, parse).Success?
    ensures C.Client(C.PineconeClientConfig(Some(key), None, Some(headers), None), env, parse,
                     (h: Headers) => Some(h), (h: Headers) => Success(C.HttpClient(h)), "v") ==
            Failure(Errors.InvalidHeadersError(C.HeadersNotJsonMessage))
  {
  }
}
