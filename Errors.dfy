/** The SDK's error type and the classification of failed control-plane calls
    (src/utils/errors.rs): a total map from an OpenAPI error, and in particular
    from an HTTP status and response body, to one `PineconeError` variant. */
module Errors {
  import opened Wrappers
  import opened Text

  /** An HTTP status code. */
  type StatusCode = nat

  const StatusBadRequest: StatusCode := 400
  const StatusUnauthorized: StatusCode := 401
  const StatusForbidden: StatusCode := 403
  const StatusNotFound: StatusCode := 404
  const StatusConflict: StatusCode := 409
  const StatusPreconditionFailed: StatusCode := 412
  const StatusUnprocessableEntity: StatusCode := 422
  const StatusInternalServerError: StatusCode := 500

  /** The generated client's response record; its typed `entity` is not modelled. */
  datatype ResponseContent = ResponseContent(status: StatusCode, content: string)

  /** The generated client's error: a transport, decoding or I/O failure, or a non-2xx response.
      The opaque inner errors are represented by their rendered text. */
  datatype OpenApiError =
    | Reqwest(detail: string)
    | Serde(detail: string)
    | Io(detail: string)
    | ResponseError(response: ResponseContent)

  /** The status and body of a failed response, as kept inside an error. */
  datatype WrappedResponseContent = WrappedResponseContent(status: StatusCode, content: string)

  datatype PineconeError =
    | UnknownResponseError(status: StatusCode, message: string)
    | ActionForbiddenError(source: WrappedResponseContent)
    | APIKeyMissingError(message: string)
    | InvalidHeadersError(message: string)
    | TimeoutError(message: string)
    | ConnectionError(detail: string)
    | ReqwestError(detail: string)
    | SerdeError(detail: string)
    | IoError(message: string)
    | BadRequestError(source: WrappedResponseContent)
    | UnauthorizedError(source: WrappedResponseContent)
    | PodQuotaExceededError(source: WrappedResponseContent)
    | CollectionsQuotaExceededError(source: WrappedResponseContent)
    | InvalidCloudError(source: WrappedResponseContent)
    | InvalidRegionError(source: WrappedResponseContent)
    | InvalidConfigurationError(message: string)
    | CollectionNotFoundError(source: WrappedResponseContent)
    | IndexNotFoundError(source: WrappedResponseContent)
    | ResourceAlreadyExistsError(source: WrappedResponseContent)
    | UnprocessableEntityError(source: WrappedResponseContent)
    | PendingCollectionError(source: WrappedResponseContent)
    | InternalServerError(source: WrappedResponseContent)
    | DataPlaneError(grpcStatus: string)
    | InferenceError(grpcStatus: string)

  /** The variant of an error, without its payload. */
  datatype Kind =
    | KUnknownResponse | KActionForbidden | KAPIKeyMissing | KInvalidHeaders | KTimeout
    | KConnection | KReqwest | KSerde | KIo | KBadRequest | KUnauthorized | KPodQuotaExceeded
    | KCollectionsQuotaExceeded | KInvalidCloud | KInvalidRegion | KInvalidConfiguration
    | KCollectionNotFound | KIndexNotFound | KResourceAlreadyExists | KUnprocessableEntity
    | KPendingCollection | KInternalServer | KDataPlane | KInference

  function KindOf(e: PineconeError): Kind {
    match e
    case UnknownResponseError(_, _) => KUnknownResponse
    case ActionForbiddenError(_) => KActionForbidden
    case APIKeyMissingError(_) => KAPIKeyMissing
    case InvalidHeadersError(_) => KInvalidHeaders
    case TimeoutError(_) => KTimeout
    case ConnectionError(_) => KConnection
    case ReqwestError(_) => KReqwest
    case SerdeError(_) => KSerde
    case IoError(_) => KIo
    case BadRequestError(_) => KBadRequest
    case UnauthorizedError(_) => KUnauthorized
    case PodQuotaExceededError(_) => KPodQuotaExceeded
    case CollectionsQuotaExceededError(_) => KCollectionsQuotaExceeded
    case InvalidCloudError(_) => KInvalidCloud
    case InvalidRegionError(_) => KInvalidRegion
    case InvalidConfigurationError(_) => KInvalidConfiguration
    case CollectionNotFoundError(_) => KCollectionNotFound
    case IndexNotFoundError(_) => KIndexNotFound
    case ResourceAlreadyExistsError(_) => KResourceAlreadyExists
    case UnprocessableEntityError(_) => KUnprocessableEntity
    case PendingCollectionError(_) => KPendingCollection
    case InternalServerError(_) => KInternalServer
    case DataPlaneError(_) => KDataPlane
    case InferenceError(_) => KInference
  }

  /** The response an error was built from, for the variants that keep one. */
  function SourceOf(e: PineconeError): Option<WrappedResponseContent> {
    match e
    case ActionForbiddenError(s) => Some(s)
    case BadRequestError(s) => Some(s)
    case UnauthorizedError(s) => Some(s)
    case PodQuotaExceededError(s) => Some(s)
    case CollectionsQuotaExceededError(s) => Some(s)
    case InvalidCloudError(s) => Some(s)
    case InvalidRegionError(s) => Some(s)
    case CollectionNotFoundError(s) => Some(s)
    case IndexNotFoundError(s) => Some(s)
    case ResourceAlreadyExistsError(s) => Some(s)
    case UnprocessableEntityError(s) => Some(s)
    case PendingCollectionError(s) => Some(s)
    case InternalServerError(s) => Some(s)
    case _ => None
  }

  /** `impl From<ResponseContent<T>> for WrappedResponseContent` */
  function WrapResponseContent(rc: ResponseContent): (w: WrappedResponseContent)
    ensures w.status == rc.status && w.content == rc.content
  {
    WrappedResponseContent(rc.status, rc.content)
  }

  /** `impl From<OpenApiError<T>> for PineconeError` */
  function FromOpenApiError(error: OpenApiError): PineconeError {
    match error
    case Reqwest(inner) => ReqwestError(inner)
    case Serde(inner) => SerdeError(inner)
    case Io(inner) => IoError(inner)
    case ResponseError(inner) => HandleResponseError(WrapResponseContent(inner))
  }

  /** `handle_response_error`: the status decides first; 403 and 404 look at the body. */
  function HandleResponseError(source: WrappedResponseContent): PineconeError {
    var status := source.status;
    var message := source.content;
    if status == StatusBadRequest then BadRequestError(source)
    else if status == StatusUnauthorized then UnauthorizedError(source)
    else if status == StatusForbidden then ParseForbiddenError(source, message)
    else if status == StatusNotFound then ParseNotFoundError(source, message)
    else if status == StatusConflict then ResourceAlreadyExistsError(source)
    else if status == StatusPreconditionFailed then PendingCollectionError(source)
    else if status == StatusUnprocessableEntity then UnprocessableEntityError(source)
    else if status == StatusInternalServerError then InternalServerError(source)
    else UnknownResponseError(status, message)
  }

  /** `parse_not_found_error` */
  function ParseNotFoundError(source: WrappedResponseContent, message: string): PineconeError {
    if Contains(message, "Index") then IndexNotFoundError(source)
    else if Contains(message, "Collection") then CollectionNotFoundError(source)
    else if Contains(message, "region") then InvalidRegionError(source)
    else if Contains(message, "cloud") then InvalidCloudError(source)
    else InternalServerError(source)
  }

  /** `parse_forbidden_error` */
  function ParseForbiddenError(source: WrappedResponseContent, message: string): PineconeError {
    if Contains(message, "Deletion protection") then ActionForbiddenError(source)
    else if Contains(message, "index") then PodQuotaExceededError(source)
    else if Contains(message, "Collection") then CollectionsQuotaExceededError(source)
    else InternalServerError(source)
  }

  // ---------------------------------------------------------------------------
  // A reference reading of the body checks: an ordered rule table, first match wins.

  datatype Rule = Rule(needle: string, kind: Kind)

  const NotFoundRules: seq<Rule> :=
    [Rule("Index", KIndexNotFound), Rule("Collection", KCollectionNotFound),
     Rule("region", KInvalidRegion), Rule("cloud", KInvalidCloud)]

  const ForbiddenRules: seq<Rule> :=
    [Rule("Deletion protection", KActionForbidden), Rule("index", KPodQuotaExceeded),
     Rule("Collection", KCollectionsQuotaExceeded)]

  /** The kind of the first rule whose needle occurs in `body`, else `fallback`. */
  function FirstMatch(rules: seq<Rule>, body: string, fallback: Kind): Kind {
    if rules == [] then fallback
    else if Contains(body, rules[0].needle) then rules[0].kind
    else FirstMatch(rules[1..], body, fallback)
  }

  /** The kinds of response error a status code can produce: the fixed ones, the
      body-refined ones, and the unknown fallback. */
  function StatusKind(status: StatusCode, body: string): Kind {
    if status == StatusBadRequest then KBadRequest
    else if status == StatusUnauthorized then KUnauthorized
    else if status == StatusForbidden then FirstMatch(ForbiddenRules, body, KInternalServer)
    else if status == StatusNotFound then FirstMatch(NotFoundRules, body, KInternalServer)
    else if status == StatusConflict then KResourceAlreadyExists
    else if status == StatusPreconditionFailed then KPendingCollection
    else if status == StatusUnprocessableEntity then KUnprocessableEntity
    else if status == StatusInternalServerError then KInternalServer
    else KUnknownResponse
  }

  /** One step of the rule table: the head rule either fires or hands over to the rest. */
  lemma FirstMatchCons(head: Rule, rest: seq<Rule>, body: string, fallback: Kind)
    ensures FirstMatch([head] + rest, body, fallback)
         == if Contains(body, head.needle) then head.kind else FirstMatch(rest, body, fallback)
  {
    assert ([head] + rest)[1..] == rest;
  }

  /** The 404 rule table read as a chain of body checks. */
  lemma {:induction false} NotFoundTable(message: string)
    ensures FirstMatch(NotFoundRules, message, KInternalServer)
         == if Contains(message, "Index") then KIndexNotFound
            else if Contains(message, "Collection") then KCollectionNotFound
            else if Contains(message, "region") then KInvalidRegion
            else if Contains(message, "cloud") then KInvalidCloud
            else KInternalServer
  {
    var f := KInternalServer;
    var index, collection := Rule("Index", KIndexNotFound), Rule("Collection", KCollectionNotFound);
    var region, cloud := Rule("region", KInvalidRegion), Rule("cloud", KInvalidCloud);
    var r3: seq<Rule> := [cloud];
    var r2 := [region] + r3;
    var r1 := [collection] + r2;
    assert NotFoundRules == [index] + r1;
    FirstMatchCons(index, r1, message, f);
    FirstMatchCons(collection, r2, message, f);
    FirstMatchCons(region, r3, message, f);
    FirstMatchCons(cloud, [], message, f);
    assert [cloud] + [] == r3;
  }

  /** A 404 body is classified by the ordered rule table, and the error keeps the response. */
  lemma NotFoundFollowsRules(source: WrappedResponseContent, message: string)
    ensures KindOf(ParseNotFoundError(source, message)) == FirstMatch(NotFoundRules, message, KInternalServer)
    ensures SourceOf(ParseNotFoundError(source, message)) == Some(source)
  {
    NotFoundTable(message);
  }

  /** The 403 rule table read as a chain of body checks. */
  lemma {:induction false} ForbiddenTable(message: string)
    ensures FirstMatch(ForbiddenRules, message, KInternalServer)
         == if Contains(message, "Deletion protection") then KActionForbidden
            else if Contains(message, "index") then KPodQuotaExceeded
            else if Contains(message, "Collection") then KCollectionsQuotaExceeded
            else KInternalServer
  {
    var f := KInternalServer;
    var protection := Rule("Deletion protection", KActionForbidden);
    var pods, collections := Rule("index", KPodQuotaExceeded), Rule("Collection", KCollectionsQuotaExceeded);
    var r2: seq<Rule> := [collections];
    var r1 := [pods] + r2;
    assert ForbiddenRules == [protection] + r1;
    FirstMatchCons(protection, r1, message, f);
    FirstMatchCons(pods, r2, message, f);
    FirstMatchCons(collections, [], message, f);
    assert [collections] + [] == r2;
  }

  /** A 403 body is classified by the ordered rule table, and the error keeps the response. */
  lemma ForbiddenFollowsRules(source: WrappedResponseContent, message: string)
    ensures KindOf(ParseForbiddenError(source, message)) == FirstMatch(ForbiddenRules, message, KInternalServer)
    ensures SourceOf(ParseForbiddenError(source, message)) == Some(source)
  {
    ForbiddenTable(message);
  }

  /** Every HTTP failure is classified by its status and body exactly as the table says;
      every variant except the unknown one keeps the response unchanged, and the unknown
      one carries the status and the body text. */
  lemma ResponseClassification(rc: ResponseContent)
    ensures KindOf(FromOpenApiError(ResponseError(rc))) == StatusKind(rc.status, rc.content)
    ensures var e := FromOpenApiError(ResponseError(rc));
      if e.UnknownResponseError? then e.status == rc.status && e.message == rc.content
      else SourceOf(e) == Some(WrappedResponseContent(rc.status, rc.content))
  {
    var w := WrapResponseContent(rc);
    var e := FromOpenApiError(ResponseError(rc));
    assert e == HandleResponseError(w);
    if rc.status == StatusForbidden {
      ForbiddenFollowsRules(w, rc.content);
    } else if rc.status == StatusNotFound {
      NotFoundFollowsRules(w, rc.content);
    }
  }

  /** The status decides before the body: for the six fixed statuses the body is never consulted. */
  lemma StatusDecidesFirst(status: StatusCode, body1: string, body2: string)
    requires status in {StatusBadRequest, StatusUnauthorized, StatusConflict, StatusPreconditionFailed, StatusUnprocessableEntity, StatusInternalServerError}
    ensures KindOf(FromOpenApiError(ResponseError(ResponseContent(status, body1))))
         == KindOf(FromOpenApiError(ResponseError(ResponseContent(status, body2))))
  {
  }

  /** `UnknownResponseError` arises exactly for the statuses the classifier does not list. */
  lemma UnknownExactlyForUnlistedStatus(rc: ResponseContent)
    ensures FromOpenApiError(ResponseError(rc)).UnknownResponseError?
        <==> rc.status !in {400, 401, 403, 404, 409, 412, 422, 500}
  {
  }

  /** A 404 that mentions both a cloud and a region is reported as a bad region, unless it
      also mentions an index or a collection. */
  lemma RegionBeforeCloud(w: WrappedResponseContent, message: string)
    requires Contains(message, "region") && Contains(message, "cloud")
    requires !Contains(message, "Index") && !Contains(message, "Collection")
    ensures ParseNotFoundError(w, message) == InvalidRegionError(w)
  {
  }

  /** The transport, decoding and I/O failures map by variant and keep their text. */
  lemma NonResponseErrors(detail: string)
    ensures FromOpenApiError(Reqwest(detail)) == ReqwestError(detail)
    ensures FromOpenApiError(Serde(detail)) == SerdeError(detail)
    ensures FromOpenApiError(Io(detail)) == IoError(detail)
  {
  }

  // ---------------------------------------------------------------------------
  // The responses used by the repository's control-plane tests.

  /** A 409 is a conflict even when its body says an index was not found. */
  lemma ConflictIgnoresBody()
    ensures KindOf(FromOpenApiError(ResponseError(ResponseContent(409, "{\"error\": \"Index not found\"}"))))
         == KResourceAlreadyExists
  {
  }
}
