/** The older client (pinecone_sdk/src/pinecone/mod.rs): construction stores the resolved
    headers as they are, and the version header is added only when the HTTP configuration
    is built, by a loop that copies the headers into a case-normalising header map. */
module LegacyClient {
  import opened Wrappers
  import opened Text
  import opened UserAgent
  import opened Environment
  import C = Client

  /** `PINECONE_API_VERSION_KEY` of this revision. */
  const ApiVersionKey: string := "x-pinecone-api-version"

  const ApiKeyMissingMessage: string := "API key is not provided as an argument nor as an environment variable"
  const HeadersNotJsonMessage: string := "Provided headers are not valid. Expects JSON."

  /** The errors construction can report in this revision. */
  datatype SdkError = APIKeyMissingError(message: string) | InvalidHeadersError(message: string)

  datatype PineconeClient = PineconeClient(
    apiKey: string,
    controllerUrl: string,
    additionalHeaders: Headers,
    sourceTag: Option<string>,
    userAgent: Option<string>)

  /** `PineconeClient::new` */
  function New(apiKey: Option<string>, controlPlaneHost: Option<string>, additionalHeaders: Option<Headers>,
               sourceTag: Option<string>, env: Env, parse: JsonParser): (r: Result<PineconeClient, SdkError>)
    ensures r.Failure? && r.error.APIKeyMissingError? <==> apiKey.None? && ApiKeyVar !in env
    ensures r.Success? <==> ResolveApiKey(apiKey, env).Some? && EagerHeaders(additionalHeaders, env, parse).Success?
    ensures r.Failure? && r.error.APIKeyMissingError? ==> r.error.message == ApiKeyMissingMessage
    ensures r.Failure? && r.error.InvalidHeadersError? ==> r.error.message == HeadersNotJsonMessage
    ensures r.Success? ==>
      && ResolveApiKey(apiKey, env) == Some(r.value.apiKey)
      && r.value.controllerUrl == ResolveControllerHost(controlPlaneHost, env)
      && Success(r.value.additionalHeaders) == EagerHeaders(additionalHeaders, env, parse)
      && r.value.sourceTag == sourceTag
      && r.value.userAgent == Some(UserAgentFor(sourceTag))
  {
    match ResolveApiKey(apiKey, env)
    case None => Failure(APIKeyMissingError(ApiKeyMissingMessage))
    case Some(key) =>
      var controllerHost := ResolveControllerHost(controlPlaneHost, env);
      match EagerHeaders(additionalHeaders, env, parse)
      case Failure(_) => Failure(InvalidHeadersError(HeadersNotJsonMessage))
      case Success(headers) =>
        Success(PineconeClient(key, controllerHost, headers, sourceTag, Some(UserAgentFor(sourceTag))))
  }

  /** The header map after inserting the entries of `headers` in the iteration order `order`:
      names are lowercased and a later insert under the same name replaces an earlier one. */
  function HeaderMapOf(order: seq<string>, headers: Headers): Headers
    requires forall i :: 0 <= i < |order| ==> order[i] in headers
  {
    if order == [] then map[]
    else
      var last := order[|order| - 1];
      HeaderMapOf(order[..|order| - 1], headers)[AsciiLower(last) := headers[last]]
  }

  /** The default headers `openapi_config` hands to the HTTP client builder. */
  function ConfigHeaders(order: seq<string>, headers: Headers, apiVersion: string): Headers
    requires forall i :: 0 <= i < |order| ==> order[i] in headers
  {
    var m := HeaderMapOf(order, headers);
    if ApiVersionKey in m then m else m[ApiVersionKey := apiVersion]
  }

  /** `PineconeClient::openapi_config`. The `HashMap` iteration order is the parameter `order`,
      which lists every stored header name. A failing build falls back to a client without
      default headers. */
  method OpenApiConfig(client: PineconeClient, order: seq<string>, build: C.ClientBuilder, apiVersion: string)
    returns (config: C.Configuration)
    requires forall k :: k in order <==> k in client.additionalHeaders
    ensures config.basePath == client.controllerUrl
    ensures config.userAgent == client.userAgent
    ensures config.apiKey == Some(C.ApiKey(None, client.apiKey))
    ensures var sent := ConfigHeaders(order, client.additionalHeaders, apiVersion);
      config.client == (if build(sent).Success? then build(sent).value else C.HttpClient(map[]))
  {
    var headers: Headers := map[];
    var i := 0;
    while i < |order|
      invariant 0 <= i <= |order|
      invariant headers == HeaderMapOf(order[..i], client.additionalHeaders)
    {
      var key := order[i];
      assert order[..i + 1][..i] == order[..i];
      headers := headers[AsciiLower(key) := client.additionalHeaders[key]];
      i := i + 1;
    }
    assert order[..i] == order;
    if ApiVersionKey !in headers {
      headers := headers[ApiVersionKey := apiVersion];
    }
    var http := match build(headers) case Success(c) => c case Failure(_) => C.HttpClient(map[]);
    config := C.Configuration(client.controllerUrl, client.userAgent, Some(C.ApiKey(None, client.apiKey)), http);
  }

  // ---------------------------------------------------------------------------

  /** The names in the header map are exactly the lowercased stored names. */
  lemma {:induction false} HeaderMapNames(order: seq<string>, headers: Headers)
    requires forall i :: 0 <= i < |order| ==> order[i] in headers
    ensures forall name :: name in HeaderMapOf(order, headers) <==> exists k :: k in order && AsciiLower(k) == name
  {
    if order != [] {
      var init := order[..|order| - 1];
      var last := order[|order| - 1];
      HeaderMapNames(init, headers);
      forall name | name in HeaderMapOf(order, headers)
        ensures exists k :: k in order && AsciiLower(k) == name
      {
        if name != AsciiLower(last) {
          assert name in HeaderMapOf(init, headers);
          var k :| k in init && AsciiLower(k) == name;
          assert k in order;
        }
      }
      forall name | exists k :: k in order && AsciiLower(k) == name
        ensures name in HeaderMapOf(order, headers)
      {
        var k :| k in order && AsciiLower(k) == name;
        if k != last {
          var j :| 0 <= j < |order| && order[j] == k;
          assert j < |order| - 1 && init[j] == k;
        }
      }
    }
  }

  /** Each value in the header map comes from the last stored name in the order that
      lowercases to it; a name with no other casing keeps its value. */
  lemma {:induction false} HeaderMapValue(order: seq<string>, headers: Headers, j: nat)
    requires forall i :: 0 <= i < |order| ==> order[i] in headers
    requires j < |order|
    requires forall i :: j < i < |order| ==> AsciiLower(order[i]) != AsciiLower(order[j])
    ensures AsciiLower(order[j]) in HeaderMapOf(order, headers)
    ensures HeaderMapOf(order, headers)[AsciiLower(order[j])] == headers[order[j]]
  {
    if j < |order| - 1 {
      var init := order[..|order| - 1];
      assert init[j] == order[j];
      HeaderMapValue(init, headers, j);
    }
  }

  /** The HTTP configuration always carries the version header. When some stored name is the
      version key in any casing the map is left as copied; otherwise the crate's version is
      added. The condition is the same case-insensitive test the current client uses. */
  lemma ConfigVersionHeader(order: seq<string>, headers: Headers, apiVersion: string)
    requires forall k :: k in order <==> k in headers
    ensures ApiVersionKey in ConfigHeaders(order, headers, apiVersion)
    ensures ApiVersionKey in HeaderMapOf(order, headers) <==> C.HasApiVersionHeader(headers)
    ensures !C.HasApiVersionHeader(headers) ==> ConfigHeaders(order, headers, apiVersion)[ApiVersionKey] == apiVersion
  {
    HeaderMapNames(order, headers);
    VersionKeysAgree();
  }

  /** The two revisions' version keys are the same name up to ASCII case. */
  lemma VersionKeysAgree()
    ensures AsciiLower(C.ApiVersionKey) == ApiVersionKey
    ensures AsciiLower(ApiVersionKey) == ApiVersionKey
  {
    AsciiLowerConcat("X-Pinecone", "-Api-Version");
    AsciiLowerConcat("x-pinecone", "-api-version");
  }

  /** Construction stores explicit headers exactly as given: no version header is added. */
  lemma NewStoresHeadersAsGiven(apiKey: Option<string>, controlPlaneHost: Option<string>, headers: Headers,
                                sourceTag: Option<string>, env: Env, parse: JsonParser)
    requires New(apiKey, controlPlaneHost, Some(headers), sourceTag, env, parse).Success?
    ensures New(apiKey, controlPlaneHost, Some(headers), sourceTag, env, parse).value.additionalHeaders == headers
  {
  }

  /** The revisions differ where the version header lives: the current client stores it in
      its headers, this one stores the headers as resolved and adds it to the HTTP client only. */
  lemma RevisionsStoreDifferentHeaders(apiKey: Option<string>, controlPlaneHost: Option<string>,
                                       additionalHeaders: Option<Headers>, sourceTag: Option<string>,
                                       env: Env, parse: JsonParser, toHeaderMap: C.HeaderMapConversion,
                                       build: C.ClientBuilder, apiVersion: string)
    requires New(apiKey, controlPlaneHost, additionalHeaders, sourceTag, env, parse).Success?
    requires C.Client(C.PineconeClientConfig(apiKey, controlPlaneHost, additionalHeaders, sourceTag),
                      env, parse, toHeaderMap, build, apiVersion).Success?
    ensures var prev := New(apiKey, controlPlaneHost, additionalHeaders, sourceTag, env, parse).value;
      var cur := C.Client(C.PineconeClientConfig(apiKey, controlPlaneHost, additionalHeaders, sourceTag),
                          env, parse, toHeaderMap, build, apiVersion).value;
      && cur.apiKey == prev.apiKey && cur.controllerUrl == prev.controllerUrl && cur.userAgent == prev.userAgent
      && cur.additionalHeaders == C.WithApiVersion(prev.additionalHeaders, apiVersion)
  {
  }
}
