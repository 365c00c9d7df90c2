# A Dafny model of the Pinecone Rust client

The Pinecone Rust SDK is a thin client over a REST control plane and a gRPC data plane.
Its own logic covers five areas, and this project models them and proves their properties:

- **Client construction.** Three revisions of constructing the client from arguments, the
  process environment and built-in defaults (`Client`, `LegacyClient`, `LegacyPinecone`,
  with the shared rules in `Environment`).
- **Index creation and configuration.** Request construction for creating and configuring
  indexes. Creation waits for the index to become ready, with a polling loop driven by an
  injected clock (`Control`, `Models`, and `CreateIndex` for the older request builder).
- **Error classification.** Failed control-plane calls are classified into the SDK's error
  variants (`Errors`).
- **Index hosts and data-plane requests.** Normalisation of an index host and the requests
  the data-plane methods send (`DataPlane`, `LegacyData`).
- **User agent.** Normalisation of the caller's source tag into the user-agent string
  (`UserAgent`). The metric conversions are in `Metrics`.

Things outside the client are parameters or oracles:

- the environment is a `map<string, string>`;
- JSON decoding, reqwest's header conversion and client builder are function parameters;
- a describe, create or configure call returns what an oracle function says;
- a describe call takes a positive number of milliseconds, given by a latency function.

The polling loop is a method of the class `Control.ControlPlane`. That class holds:

- the clock `now`, in milliseconds;
- the number of describe calls issued so far;
- the log of calls made.

The method is proved equal to the specification function `Control.PollRun`, and the
properties of the loop are lemmas about that function. The class's other operations are
methods too, because they issue calls and advance that state: `IsReady`,
`CreateServerlessIndex`, `CreatePodIndex`, `CreateAndPoll` and `ConfigureIndex`.
`LegacyClient.OpenApiConfig` is a method because its source copies headers with a loop.
`UserAgent.GetUserAgent` is a method because its source builds the string by mutation.
Everything else is a function.

## Model

| member | source | states |
|---|---|---|
| Metrics.FromRequestMetric | src/models/metric.rs:16-24 | a request metric becomes the SDK metric with the same name |
| Metrics.FromResponseMetric | src/models/metric.rs:26-34 | a response metric becomes the SDK metric with the same name |
| Metrics.ToRequestMetric | src/models/metric.rs:36-44 | an SDK metric becomes the request metric with the same name |
| Metrics.ToResponseMetric | src/models/metric.rs:46-54 | an SDK metric becomes the response metric with the same name |
| Metrics.MetricNameInjective | src/models/metric.rs:6-14 | distinct metrics have distinct wire names |
| Metrics.RequestRoundTrip | src/models/metric.rs:16-44 | request metric to metric and back is the identity, and so is metric to request metric and back |
| Metrics.ResponseRoundTrip | src/models/metric.rs:26-54 | response metric to metric and back is the identity, and so is the other order |
| Metrics.DefaultIsCosine | src/models/metric.rs:7-9 | the default metric is cosine, on both wire forms |
| Models.NamespaceFrom | src/models/namespace.rs:8-20 | a namespace built from a name has that name |
| Models.NamespaceRoundTrip | pinecone_sdk/src/pinecone/data.rs:48-66 | building a namespace from a name and reading the name back are inverse; the empty name gives the default namespace |
| Models.DefaultWaitIsFiveMinutes | src/models/wait_policy.rs:13-17 | the default wait policy waits 300000 ms |
| Environment.Var | src/pinecone/mod.rs:69-72 | a variable reads as present exactly when it is in the environment, with its value |
| Environment.ResolveApiKey | src/pinecone/mod.rs:69-81 | no contract of its own; `Environment.ApiKeyPrecedence` states it: the argument, else `PINECONE_API_KEY`, else no key |
| Environment.ResolveControllerHost | src/pinecone/mod.rs:83-85 | no contract of its own; `Environment.ControllerHostPrecedence` states it: the argument, else `PINECONE_CONTROLLER_HOST`, else the default host |
| Environment.EnvHeaders | src/pinecone/mod.rs:93-103 | no contract of its own; the reading of `PINECONE_ADDITIONAL_HEADERS` that both header fallbacks share, stated through `Environment.LazyHeadersPrecedence` and `Environment.EagerHeadersPrecedence`: the empty map when unset, otherwise what the decoder returns |
| Environment.EagerHeaders | src/pinecone/mod.rs:91-104 | no contract of its own; `Environment.EagerHeadersPrecedence` and `Environment.EagerDiffersFromLazy` state it |
| Environment.LazyHeaders | pinecone_sdk/src/pinecone.rs:38-49 | no contract of its own; `Environment.LazyHeadersPrecedence` and `Environment.EagerDiffersFromLazy` state it |
| Environment.ApiKeyPrecedence | src/pinecone/mod.rs:69-81 | the argument wins, else `PINECONE_API_KEY`; the key is missing exactly when both are absent |
| Environment.ControllerHostPrecedence | src/pinecone/mod.rs:83-85 | host is the argument, else `PINECONE_CONTROLLER_HOST`, else `https://api.pinecone.io` |
| Environment.LazyHeadersPrecedence | pinecone_sdk/src/pinecone.rs:38-49 | explicit headers are used whatever the environment holds; otherwise an unset variable gives the empty map and a set one gives what the decoder returns |
| Environment.EagerHeadersPrecedence | src/pinecone/mod.rs:91-104 | the eager reading fails exactly when the variable is set and does not decode, even with explicit headers; on success the argument wins |
| Environment.EagerDiffersFromLazy | pinecone_sdk/src/pinecone/mod.rs:80-92 | the eager and lazy readings differ exactly when headers are given and the environment variable does not decode |
| Client.AddApiVersionHeader | src/pinecone/mod.rs:170-175 | the version key is added with the crate's version, every other entry is kept |
| Client.WithApiVersion | src/pinecone/mod.rs:108-113 | the result always has the version key in some casing; existing entries are kept, and an existing version entry keeps its value |
| Client.Client | src/pinecone/mod.rs:67-149 | succeeds exactly when a key resolves, the headers decode, the header-map conversion accepts them and the client builds; fails with `APIKeyMissingError` exactly when neither source has a key, with `InvalidHeadersError` and the JSON message when the headers do not decode, with `InvalidHeadersError` and the invalid-headers message when the conversion refuses them, and with `ReqwestError` and the builder's error when the build fails; on success the key, host, user agent and source tag are the resolved ones, the configuration's base path is the host, and the headers carry a version key |
| Client.ExplicitKeyWins | src/pinecone/mod.rs:69-72 | an explicit key is used whatever the environment holds; the environment's key only without one |
| Client.MissingKeyFails | src/pinecone/mod.rs:73-79 | without a key anywhere, construction fails with `APIKeyMissingError` and its message |
| Client.UndecodableEnvHeadersFail | src/pinecone/mod.rs:91-104 | an environment header variable that is not JSON fails construction with `InvalidHeadersError`, even when headers are passed |
| Client.StoredHeaders | src/pinecone/mod.rs:91-113 | the stored headers are the resolved ones, with the version header added exactly when no casing of it was present |
| Client.ClientSendsStoredHeaders | src/pinecone/mod.rs:116-138 | the HTTP client is built from the stored headers after header-map conversion |
| Client.DefaultHeaders | src/pinecone/mod.rs:108-113 | with no headers anywhere, the client has exactly the version header |
| Client.LowerCaseVersionKept | src/pinecone/mod.rs:108-113 | a lower-case version header is kept with its value and no second one is added |
| LegacyClient.New | pinecone_sdk/src/pinecone/mod.rs:54-113 | succeeds exactly when a key resolves and the eager header reading decodes; fails with `APIKeyMissingError` and its message exactly when neither source has a key, and otherwise with `InvalidHeadersError` and the JSON message; on success the key and host are the resolved ones, and the headers are the eager reading's |
| LegacyClient.HeaderMapOf | pinecone_sdk/src/pinecone/mod.rs:119-124 | no contract of its own; the map the copy loop builds. `LegacyClient.HeaderMapNames` and `LegacyClient.HeaderMapValue` state it, and `LegacyClient.OpenApiConfig` is proved to build it |
| LegacyClient.ConfigHeaders | pinecone_sdk/src/pinecone/mod.rs:119-132 | no contract of its own; `LegacyClient.ConfigVersionHeader` states it |
| LegacyClient.OpenApiConfig | pinecone_sdk/src/pinecone/mod.rs:116-150 | runs the copy loop; builds the HTTP client from the lowercased header map, plus the version header when absent; falls back to a client without headers when the build fails; base path is the host, the key has no prefix |
| LegacyClient.HeaderMapNames | pinecone_sdk/src/pinecone/mod.rs:119-124 | the copied map's names are exactly the lowercased stored names |
| LegacyClient.HeaderMapValue | pinecone_sdk/src/pinecone/mod.rs:119-124 | each copied value comes from the last stored name that lowercases to it |
| LegacyClient.ConfigVersionHeader | pinecone_sdk/src/pinecone/mod.rs:127-132 | the configuration always has the version header; the copy already holds it exactly when some stored name matches it ignoring case; otherwise the crate's version is inserted |
| LegacyClient.VersionKeysAgree | pinecone_sdk/src/pinecone/mod.rs:10 | this revision's version key is the current one lowercased |
| LegacyClient.NewStoresHeadersAsGiven | pinecone_sdk/src/pinecone/mod.rs:106-112 | explicit headers are stored exactly as given, with no version header |
| LegacyClient.RevisionsStoreDifferentHeaders | pinecone_sdk/src/pinecone/mod.rs:80-112 | both revisions resolve the same key, host and user agent; the current one stores the older one's headers with the version header added |
| LegacyPinecone.New | pinecone_sdk/src/pinecone.rs:16-74 | missing key exactly when both sources are absent; invalid headers exactly when the key resolves and the lazy reading fails, with the decoder's error; on success the resolved values, in both configurations |
| LegacyPinecone.ArgumentsOverrideEnvironment | pinecone_sdk/src/pinecone.rs:298-343 | explicit key, host and headers are used whatever the environment holds, and construction succeeds |
| LegacyPinecone.EnvironmentHeaders | pinecone_sdk/src/pinecone.rs:38-49 | without explicit headers: no variable gives none, undecodable text gives `InvalidHeadersError` with the decoder's error, decodable text gives the decoded map |
| LegacyPinecone.ExplicitHeadersIgnoreBadEnvironment | pinecone_sdk/src/pinecone.rs:38-49 | with explicit headers, a bad environment variable does not fail this revision, but it fails the current one |
| Text.ContainsAt | src/utils/errors.rs:216-240 | the substring test the body checks use holds exactly when the needle occurs at some position of the body |
| Errors.FromOpenApiError | src/utils/errors.rs:181-196 | no contract of its own; `Errors.NonResponseErrors` states the transport, decoding and I/O cases, and `Errors.ResponseClassification` the response case |
| Errors.HandleResponseError | src/utils/errors.rs:199-214 | no contract of its own; `Errors.ResponseClassification`, `Errors.StatusDecidesFirst`, `Errors.UnknownExactlyForUnlistedStatus` and `Errors.ConflictIgnoresBody` state it |
| Errors.ParseNotFoundError | src/utils/errors.rs:216-228 | no contract of its own; `Errors.NotFoundFollowsRules` and `Errors.RegionBeforeCloud` state it |
| Errors.ParseForbiddenError | src/utils/errors.rs:230-240 | no contract of its own; `Errors.ForbiddenFollowsRules` states it |
| Errors.WrapResponseContent | src/utils/errors.rs:251-258 | the wrapped response keeps status and content |
| Errors.FirstMatchCons | src/utils/errors.rs:216-240 | the head rule of a body check table fires when its needle occurs, and otherwise the rest decides |
| Errors.NotFoundTable | src/utils/errors.rs:216-228 | the 404 table is the chain `Index`, `Collection`, `region`, `cloud`, else internal server error |
| Errors.NotFoundFollowsRules | src/utils/errors.rs:216-228 | a 404 body is classified by the first rule of the table whose needle it contains, and the error keeps the response |
| Errors.ForbiddenTable | src/utils/errors.rs:230-240 | the 403 table is the chain `Deletion protection`, `index`, `Collection`, else internal server error |
| Errors.ForbiddenFollowsRules | src/utils/errors.rs:230-240 | a 403 body is classified by the first matching rule, and the error keeps the response |
| Errors.ResponseClassification | src/utils/errors.rs:199-214 | every HTTP failure gets the kind the status table gives; the unknown variant carries status and body, every other one keeps the response |
| Errors.StatusDecidesFirst | src/utils/errors.rs:203-211 | for 400, 401, 409, 412, 422 and 500 the body does not affect the kind |
| Errors.UnknownExactlyForUnlistedStatus | src/utils/errors.rs:212 | `UnknownResponseError` arises exactly for statuses outside the eight listed |
| Errors.RegionBeforeCloud | src/utils/errors.rs:216-228 | a 404 body naming both region and cloud, but no index or collection, is `InvalidRegionError` |
| Errors.NonResponseErrors | src/utils/errors.rs:181-196 | transport, decoding and I/O failures map to their own variants with their text |
| Errors.ConflictIgnoresBody | src/utils/errors.rs:208 | a 409 whose body says an index was not found is still a conflict |
| Control.MapApiResponse | src/pinecone/control.rs:82-84 | a REST answer is passed through on success and classified on failure |
| Control.ServerlessIndexRequest | src/pinecone/control.rs:65-79 | the request carries name, dimension, protection and metric, with a serverless spec holding cloud and region and no pod spec |
| Control.PodIndexRequest | src/pinecone/control.rs:161-184 | the request carries name, dimension, protection and metric, with a pod spec holding every pod field and no serverless spec |
| Control.CreationSpecsDiffer | src/pinecone/control.rs:173-176 | a serverless creation request is never a pod creation request |
| Control.ConfigureRequestFor | src/pinecone/control.rs:352-383 | fails with `InvalidConfigurationError` exactly when all three options are absent; protection is copied; the spec is absent exactly when replicas and pod type both are; the pod part carries exactly the supplied values |
| Control.PollRun | src/pinecone/control.rs:207-229 | no contract of its own; the specification of the `WaitFor` loop. `Control.PollRunOutcome`, `Control.EqualityKeepsWaiting` and `Control.SevenSecondWait` state it, and `Control.ControlPlane.HandlePollIndex` is proved to follow it |
| Control.WaitOutcome | src/pinecone/control.rs:199-236 | no contract of its own; `handle_poll_index` under either wait policy. `Control.ControlPlane.HandlePollIndex` is proved to end in its result |
| Control.Describes | src/pinecone/control.rs:239-245 | a helper of the model, not a property of the source: n polls log n describe calls of the index |
| Control.PollRunOutcome | src/pinecone/control.rs:207-229 | a run polls at least once; the clock advances at least one ms per poll; it stops at the first ready answer; it succeeds exactly when the last poll was ready; its only error is the timeout, returned when elapsed time is strictly greater than the duration, at most one poll after the deadline |
| Control.EqualityKeepsWaiting | src/pinecone/control.rs:214-227 | a not-ready poll landing exactly on the deadline sleeps zero ms and polls again |
| Control.SevenSecondWait | src/pinecone/control.rs:1497-1545 | waiting 7 s on a never-ready index with fast enough describe calls makes exactly 3 polls and times out between 7 s and 8 s after the start |
| Control.ControlPlane.IsReady | src/pinecone/control.rs:239-245 | one describe call; a failed call reads as not ready; the clock moves by the call's latency |
| Control.ControlPlane.HandlePollIndex | src/pinecone/control.rs:199-236 | the loop ends in the outcome, clock and poll count `PollRun` gives; under `NoWait` it makes no call and succeeds; the log gains one describe per poll |
| Control.ControlPlane.CreateServerlessIndex | src/pinecone/control.rs:54-91 | a failed creation returns the classified error before any poll; otherwise the created index is returned once polling succeeds, else the polling error |
| Control.ControlPlane.CreatePodIndex | src/pinecone/control.rs:145-196 | the same as serverless creation, with the pod request |
| Control.ControlPlane.CreateAndPoll | src/pinecone/control.rs:187-195 | the shared create-then-poll step, with the full new state |
| Control.ControlPlane.ConfigureIndex | src/pinecone/control.rs:345-395 | no option at all returns the configuration error and makes no call; otherwise one configure call, whose answer is classified |
| CreateIndex.ParseMetric | pinecone_sdk/src/control/create_index.rs:22-30 | absent stays absent; the three names map to the matching metric; any other string is the invalid-metric panic |
| CreateIndex.ParseCloud | pinecone_sdk/src/control/create_index.rs:33-41 | absent is the default cloud gcp; the three names map to the matching cloud; any other string is the invalid-cloud panic |
| CreateIndex.CreateServerlessIndexReq | pinecone_sdk/src/control/create_index.rs:20-60 | succeeds exactly when both strings parse, with the metric checked first; name, dimension and region are copied into a serverless-only spec |
| CreateIndex.ParseNames | pinecone_sdk/src/control/create_index.rs:22-41 | printing a metric or cloud and parsing it back gives the same value |
| CreateIndex.CosineGcpExample | pinecone_sdk/src/control/create_index.rs:73-93 | the crate's example parameters give a cosine, gcp, us-east-1 request named `index_name` with dimension 10 |
| DataPlane.LeadingLetters | src/pinecone/data.rs:570-573 | the length of the longest ASCII-letter prefix |
| DataPlane.TrailingDigits | src/pinecone/data.rs:582-585 | the length of the longest ASCII-digit suffix |
| DataPlane.HasScheme | src/pinecone/data.rs:570-573 | no contract of its own; `DataPlane.HasSchemeMeaning` states it |
| DataPlane.HasPort | src/pinecone/data.rs:582-585 | no contract of its own; `DataPlane.HasPortMeaning` states it |
| DataPlane.HasSchemeMeaning | src/pinecone/data.rs:570-573 | a scheme is present exactly when the host starts with one or more ASCII letters and `://` |
| DataPlane.HasPortMeaning | src/pinecone/data.rs:582-585 | a port is present exactly when the host ends with `:` and one or more digits |
| DataPlane.DefaultSchemeIsScheme | src/pinecone/data.rs:611-615 | a host behind `https://` has a scheme |
| DataPlane.DefaultPortIsPort | src/pinecone/data.rs:617-621 | an endpoint followed by `:443` has a port |
| DataPlane.SchemeSurvivesSuffix | src/pinecone/data.rs:617-621 | appending a port keeps the scheme |
| DataPlane.PortIgnoresDefaultScheme | src/pinecone/data.rs:611-621 | prepending `https://` does not change whether a port is present |
| DataPlane.NormalizeEndpoint | src/pinecone/data.rs:611-621 | no contract of its own; `DataPlane.NormalizeEndpointShape`, `DataPlane.NormalizedIsComplete`, `DataPlane.FullUrlUnchanged` and `DataPlane.NormalizeIdempotent` state it |
| DataPlane.NormalizeEndpointShape | src/pinecone/data.rs:611-621 | normalisation adds `https://` exactly when the host has no scheme, and `:443` exactly when it has no port |
| DataPlane.NormalizedIsComplete | src/pinecone/data.rs:611-621 | a normalised endpoint has a scheme and a port |
| DataPlane.FullUrlUnchanged | src/pinecone/data.rs:665-678 | a host with a scheme and a port is used unchanged |
| DataPlane.NormalizeIdempotent | pinecone_sdk/src/pinecone/data.rs:646-659 | normalising twice is normalising once |
| DataPlane.IndexFor | src/pinecone/data.rs:608-629 | the handle stores the normalised endpoint, which has a scheme and a port; a failed connection is a `ConnectionError` with the transport's text |
| DataPlane.UpsertRequestFor | src/pinecone/data.rs:82-85 | the vectors as given, in the namespace's name |
| DataPlane.ListRequestFor | src/pinecone/data.rs:131-136 | namespace name, prefix, limit and token as given |
| DataPlane.DescribeIndexStatsRequestFor | src/pinecone/data.rs:182 | the filter as given |
| DataPlane.UpdateRequestFor | src/pinecone/data.rs:246-252 | id, values, sparse values, metadata and namespace name as given |
| DataPlane.QueryByIdRequest | src/pinecone/data.rs:303-313 | the id query sends no vector and no sparse vector; include flags are true exactly when given as true |
| DataPlane.QueryByValueRequest | src/pinecone/data.rs:362-372 | the value query sends an empty id and the given vectors; include flags are true exactly when given as true |
| DataPlane.FetchRequestFor | src/pinecone/data.rs:546-549 | ids and namespace name as given |
| DataPlane.DeleteByIdRequest | src/pinecone/data.rs:409-415 | the request deletes exactly the given ids, in the given namespace |
| DataPlane.DeleteAllRequest | src/pinecone/data.rs:445-450 | the request deletes every vector, in the given namespace |
| DataPlane.DeleteByFilterRequest | src/pinecone/data.rs:491-496 | the request deletes the vectors matching the filter, in the given namespace |
| DataPlane.DeleteScopeRoundTrip | pinecone_sdk/src/pinecone/data.rs:442-531 | every delete request with a scope is the one the matching method builds |
| DataPlane.QueryModesDiffer | pinecone_sdk/src/pinecone/data.rs:333-402 | a query by id differs from a query by a non-empty vector or with a non-empty id |
| LegacyData.RewriteHost | pinecone_sdk/src/data.rs:93-97 | a host starting with `https://` is kept, any other becomes `https://` + host + `:443`; the result always starts with `https://` |
| LegacyData.GetIndexHost | pinecone_sdk/src/data.rs:90-99 | a describe failure is passed on; otherwise the host is rewritten |
| LegacyData.RewriteIdempotent | pinecone_sdk/src/data.rs:93-97 | rewriting twice is rewriting once |
| LegacyData.RewriteAgreesOnBareHost | pinecone_sdk/src/data.rs:93-97 | on a host with no scheme and no port, the rewrite equals the later normalisation |
| LegacyData.RewriteDiffersOnOtherSchemes | pinecone_sdk/src/data.rs:93-97 | a complete URL with another scheme is kept by the later normalisation but wrapped again by the rewrite |
| LegacyData.IndexNamed | pinecone_sdk/src/data.rs:81-88 | the index keeps the requested name; a failed connection passes its error on |
| LegacyData.UpsertRequestFor | pinecone_sdk/src/data.rs:41-45 | the vectors as given, in the default namespace |
| LegacyData.UpsertIsDefaultNamespaceUpsert | pinecone_sdk/src/data.rs:41-45 | the first upsert is the later one fixed to the default namespace |
| UserAgent.BuildSourceTag | pinecone_sdk/src/utils/user_agent.rs:4-19 | no contract of its own; `UserAgent.SourceTagCharacters`, `UserAgent.NormalisedIsFixedPoint`, `UserAgent.SourceTagIdempotent`, `UserAgent.TwoWordTag` and the two test examples state it |
| UserAgent.KeepAllowed | pinecone_sdk/src/utils/user_agent.rs:10-12 | the result has only `[a-z0-9_: ]`; allowed text is kept whole |
| UserAgent.SourceTagCharacters | pinecone_sdk/src/utils/user_agent.rs:10-18 | a normalised tag consists of `[a-z0-9_:]` only, so it has no space |
| UserAgent.NormalisedIsFixedPoint | pinecone_sdk/src/utils/user_agent.rs:4-19 | text made of `[a-z0-9_:]` is left unchanged |
| UserAgent.SourceTagIdempotent | pinecone_sdk/src/utils/user_agent.rs:4-19 | normalising a normalised tag changes nothing |
| UserAgent.ManyWords | pinecone_sdk/src/utils/user_agent.rs:13-18 | filtered text made of any non-empty list of words, with runs of spaces around and between them, becomes the words joined by `_`, one `_` per run |
| UserAgent.TwoWordTag | pinecone_sdk/src/utils/user_agent.rs:13-18 | a tag whose pieces filter down to a word between runs of spaces, then another word, becomes the two words joined by one `_`, however many spaces there were |
| UserAgent.HelloWorldExample | pinecone_sdk/src/utils/user_agent.rs:39-42 | `"    Hello   World!! "` becomes `hello_world` |
| UserAgent.SpecialCharsExample | pinecone_sdk/src/utils/user_agent.rs:45-48 | `" Hello   World__:_!@#@#   "` becomes `hello_world__:_` |
| UserAgent.GetUserAgent | pinecone_sdk/src/utils/user_agent.rs:22-31 | the base string, followed by `; source_tag=` and the normalised tag when a tag is given |
| UserAgent.UserAgentFor | pinecone_sdk/src/utils/user_agent.rs:22-31 | no contract of its own; the value `UserAgent.GetUserAgent` is proved to return. The two user-agent examples state it |
| UserAgent.UntaggedUserAgentExample | pinecone_sdk/src/utils/user_agent.rs:51-56 | without a tag the user agent is exactly `lang=rust; pinecone-rust-client=0.1.0` |
| UserAgent.TaggedUserAgentExample | pinecone_sdk/src/utils/user_agent.rs:59-64 | with tag `tag`, the user agent ends in `; source_tag=tag` |

## Left out

- **Network and transport:**
  - The REST and gRPC calls are oracles: the HTTP stubs, tonic channels, TLS, `new_index_connection` and the API-key interceptor are not modelled.
  - A connection attempt is a `Connector` parameter.
  - Server-side behaviour the client only forwards is not modelled: ranking, pagination, and what fetch or list return.
- **Time:**
  - Real time, async suspension and `tokio::time::sleep` are replaced by the injected clock, and durations are whole milliseconds.
  - The nanosecond `Instant` and the `as_millis` truncation of the remaining time are not modelled.
  - `saturating_sub` reads the clock a second time in the source. The model uses the single reading taken after the poll, so no time passes between the comparison and the sleep.
  - The creation call's own duration does not advance the model's clock, and neither do configure calls.
- **Library internals:**
  - `to_lowercase` is modelled on ASCII letters only; Unicode case mapping is not modelled.
  - The regex class `\d` in `has_port` is modelled as ASCII digits; Rust's `\d` also matches other Unicode digits.
  - JSON decoding of `PINECONE_ADDITIONAL_HEADERS` is a parameter, and so are reqwest's header-map conversion and client builder.
  - The panics of `HeaderName`/`HeaderValue` parsing in `openapi_config` are not modelled.
  - An environment variable that is not valid Unicode reads as absent.
  - `LegacyClient.OpenApiConfig`: the `HashMap` iteration order is a parameter, so the model does not fix which casing of a duplicated name wins.
- **Values:**
  - Metadata is a map of strings, and vector values are `real` rather than `f32`.
  - `u32` and `i32` fields are unbounded integers.
  - The typed response entity inside an OpenAPI error is not modelled.
  - Calls into other crates' errors are represented by their text.
- **Panics:** the panics of `create_serverless_index_req` on an unknown metric or cloud are returned as `Panic` values.
- **`crate::version`:** `API_VERSION` comes from `crate::version`, which is not part of this model. The version is a parameter.
- **Older revisions:** the older constructors and request builders build values from `pinecone_sdk/src/config.rs` and `pinecone_sdk/src/utils/errors.rs` as their call sites use them.
  - Those two files are not part of this model; `pinecone_sdk/src/utils/errors.rs` only projects fields out of opaque reqwest errors.
  - The user agent of both older clients is the one `UserAgent` models, built from their source tag.
- **User agent:** `src/utils/user_agent.rs` is not part of this model. The current client's user agent is taken to be the one `UserAgent` models.
- **Data plane:**
  - `src/pinecone/data.rs` and `pinecone_sdk/src/pinecone/data.rs` have the same host rule and the same request shapes, so `DataPlane` models both.
- **Thin wrappers:** describe, list and delete index, the collection methods, and the inference `embed` methods are single calls with error mapping. `default_client`, the `TryFrom` impls and the field-copy conversions of index models are not modelled either.
- **Build and code-generation scripts:** not modelled.
- **Error classification:** the control-plane tests that check it on full JSON bodies are covered by the general classification lemmas, not by body-by-body examples.
