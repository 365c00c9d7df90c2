/** The data-plane side of the client (src/pinecone/data.rs; pinecone_sdk/src/pinecone/data.rs
    has the same host rule and the same request shapes): normalising an index host, and the
    gRPC requests the `Index` methods send. The calls themselves are not modelled. */
module DataPlane {
  import opened Wrappers
  import opened Text
  import opened Errors
  import opened Models

  // ---------------------------------------------------------------------------
  // Host normalisation

  /** The number of ASCII letters `s` starts with. */
  function LeadingLetters(s: string): (n: nat)
    ensures n <= |s|
    ensures forall i :: 0 <= i < n ==> IsAsciiLetter(s[i])
    ensures n < |s| ==> !IsAsciiLetter(s[n])
  {
    if |s| > 0 && IsAsciiLetter(s[0]) then 1 + LeadingLetters(s[1..]) else 0
  }

  /** The number of ASCII digits `s` ends with. */
  function TrailingDigits(s: string): (n: nat)
    ensures n <= |s|
    ensures forall i :: |s| - n <= i < |s| ==> IsAsciiDigit(s[i])
    ensures n < |s| ==> !IsAsciiDigit(s[|s| - 1 - n])
  {
    if |s| > 0 && IsAsciiDigit(s[|s| - 1]) then 1 + TrailingDigits(s[..|s| - 1]) else 0
  }

  /** `has_scheme`: the regular expression `^[a-zA-Z]+://`, read as a scan of the leading letters. */
  predicate HasScheme(host: string) {
    var n := LeadingLetters(host);
    1 <= n && n + 3 <= |host| && host[n..n + 3] == "://"
  }

  /** `has_port`: the regular expression `:\d+$`, read as a scan of the trailing digits. */
  predicate HasPort(host: string) {
    var n := TrailingDigits(host);
    1 <= n && n < |host| && host[|host| - 1 - n] == ':'
  }

  /** The scheme pattern matched with `n` letters. */
  predicate SchemeAt(s: string, n: int) {
    1 <= n && n + 3 <= |s| && (forall i :: 0 <= i < n ==> IsAsciiLetter(s[i])) && s[n..n + 3] == "://"
  }

  /** The port pattern matched with its colon at index `i`. */
  predicate PortAt(s: string, i: int) {
    0 <= i && i + 1 < |s| && s[i] == ':' && forall j :: i < j < |s| ==> IsAsciiDigit(s[j])
  }

  /** `has_scheme` holds exactly when the host is one or more ASCII letters followed by `://`. */
  lemma HasSchemeMeaning(s: string)
    ensures HasScheme(s) <==> exists n :: SchemeAt(s, n)
  {
    var m := LeadingLetters(s);
    if HasScheme(s) {
      assert SchemeAt(s, m);
    }
    if n :| SchemeAt(s, n) {
      assert s[n..n + 3][0] == s[n];
      assert m == n;
    }
  }

  /** `has_port` holds exactly when the host ends with `:` and one or more ASCII digits. */
  lemma HasPortMeaning(s: string)
    ensures HasPort(s) <==> exists i :: PortAt(s, i)
  {
    var m := TrailingDigits(s);
    if HasPort(s) {
      assert PortAt(s, |s| - 1 - m);
    }
    if i :| PortAt(s, i) {
      assert m == |s| - 1 - i;
    }
  }

  const DefaultScheme: string := "https://"
  const DefaultPort: string := ":443"

  /** The endpoint `index` connects to: `https://` in front when the host has no scheme, then
      `:443` behind when the result has no port. */
  function NormalizeEndpoint(host: string): string {
    var endpoint := if HasScheme(host) then host else DefaultScheme + host;
    if HasPort(endpoint) then endpoint else endpoint + DefaultPort
  }

  lemma DefaultSchemeIsScheme(host: string)
    ensures HasScheme(DefaultScheme + host)
  {
    var s := DefaultScheme + host;
    assert SchemeAt(s, 5);
    HasSchemeMeaning(s);
  }

  lemma DefaultPortIsPort(endpoint: string)
    ensures HasPort(endpoint + DefaultPort)
  {
    var s := endpoint + DefaultPort;
    assert PortAt(s, |endpoint|);
    HasPortMeaning(s);
  }

  /** Appending text keeps a scheme that is already there. */
  lemma SchemeSurvivesSuffix(s: string, suffix: string)
    requires HasScheme(s)
    ensures HasScheme(s + suffix)
  {
    HasSchemeMeaning(s);
    var n :| SchemeAt(s, n);
    assert (s + suffix)[n..n + 3] == s[n..n + 3];
    assert SchemeAt(s + suffix, n);
    HasSchemeMeaning(s + suffix);
  }

  /** The port test sees through the default scheme: `https://` ends in `/`, which is neither
      a colon nor a digit. */
  lemma PortIgnoresDefaultScheme(host: string)
    ensures HasPort(DefaultScheme + host) <==> HasPort(host)
  {
    var s := DefaultScheme + host;
    HasPortMeaning(s);
    HasPortMeaning(host);
    if i :| PortAt(s, i) {
      assert s[7] == '/';
      forall j | i - 8 < j < |host|
        ensures IsAsciiDigit(host[j])
      {
        assert host[j] == s[j + 8];
      }
      assert PortAt(host, i - 8);
    }
    if i :| PortAt(host, i) {
      assert PortAt(s, i + 8);
    }
  }

  /** Normalisation adds exactly what is missing from the host: the scheme when the host has
      none and the port when the host has none. */
  lemma NormalizeEndpointShape(host: string)
    ensures NormalizeEndpoint(host) ==
      (if HasScheme(host) then "" else DefaultScheme) + host + (if HasPort(host) then "" else DefaultPort)
  {
    PortIgnoresDefaultScheme(host);
  }

  /** A normalised endpoint has a scheme and a port. */
  lemma NormalizedIsComplete(host: string)
    ensures HasScheme(NormalizeEndpoint(host)) && HasPort(NormalizeEndpoint(host))
  {
    var endpoint := if HasScheme(host) then host else DefaultScheme + host;
    if !HasScheme(host) {
      DefaultSchemeIsScheme(host);
    }
    if !HasPort(endpoint) {
      DefaultPortIsPort(endpoint);
      SchemeSurvivesSuffix(endpoint, DefaultPort);
    }
  }

  /** A host with a scheme and a port is used as given. */
  lemma FullUrlUnchanged(host: string)
    requires HasScheme(host) && HasPort(host)
    ensures NormalizeEndpoint(host) == host
  {
  }

  /** Normalising twice is normalising once. */
  lemma NormalizeIdempotent(host: string)
    ensures NormalizeEndpoint(NormalizeEndpoint(host)) == NormalizeEndpoint(host)
  {
    NormalizedIsComplete(host);
  }

  /** A data-plane handle: its normalised host (the gRPC channel is not modelled). */
  datatype Index = Index(host: string)

  /** Opening a connection to an endpoint; failure carries the transport's message. */
  type Connector = string -> Result<(), string>

  /** `PineconeClient::index`: normalise, then connect to the normalised endpoint. */
  function IndexFor(host: string, connect: Connector): (r: Result<Index, PineconeError>)
    ensures r.Failure? <==> connect(NormalizeEndpoint(host)).Failure?
    ensures r.Failure? ==> r.error == ConnectionError(connect(NormalizeEndpoint(host)).error)
    ensures r.Success? ==> r.value.host == NormalizeEndpoint(host)
    ensures r.Success? ==> HasScheme(r.value.host) && HasPort(r.value.host)
    ensures r.Success? && HasScheme(host) && HasPort(host) ==> r.value.host == host
  {
    var endpoint := NormalizeEndpoint(host);
    NormalizedIsComplete(host);
    match connect(endpoint)
    case Failure(e) => Failure(ConnectionError(e))
    case Success(_) => Success(Index(endpoint))
  }

  // ---------------------------------------------------------------------------
  // Requests

  /** A metadata value, as the protobuf `Struct` fields the client passes through. */
  datatype Metadata = Metadata(fields: map<string, string>)

  datatype SparseValues = SparseValues(indices: seq<nat>, values: seq<real>)

  datatype Vector = Vector(id: string, values: seq<real>, sparseValues: Option<SparseValues>, metadata: Option<Metadata>)

  datatype UpsertRequest = UpsertRequest(vectors: seq<Vector>, namespace: string)

  datatype ListRequest = ListRequest(namespace: string, prefix: Option<string>, limit: Option<nat>,
                                     paginationToken: Option<string>)

  datatype DescribeIndexStatsRequest = DescribeIndexStatsRequest(filter: Option<Metadata>)

  datatype UpdateRequest = UpdateRequest(id: string, values: seq<real>, sparseValues: Option<SparseValues>,
                                         setMetadata: Option<Metadata>, namespace: string)

  datatype QueryVector = QueryVector(values: seq<real>)

  datatype QueryRequest = QueryRequest(
    id: string,
    topK: nat,
    namespace: string,
    filter: Option<Metadata>,
    includeValues: bool,
    includeMetadata: bool,
    queries: seq<QueryVector>,
    vector: seq<real>,
    sparseVector: Option<SparseValues>)

  datatype DeleteRequest = DeleteRequest(ids: seq<string>, deleteAll: bool, namespace: string, filter: Option<Metadata>)

  datatype FetchRequest = FetchRequest(ids: seq<string>, namespace: string)

  function UpsertRequestFor(vectors: seq<Vector>, namespace: Namespace): (r: UpsertRequest)
    ensures r.vectors == vectors && r.namespace == namespace.name
  {
    UpsertRequest(vectors, namespace.name)
  }

  function ListRequestFor(namespace: Namespace, prefix: Option<string>, limit: Option<nat>,
                          paginationToken: Option<string>): (r: ListRequest)
    ensures r.namespace == namespace.name && r.prefix == prefix && r.limit == limit
    ensures r.paginationToken == paginationToken
  {
    ListRequest(namespace.name, prefix, limit, paginationToken)
  }

  function DescribeIndexStatsRequestFor(filter: Option<Metadata>): (r: DescribeIndexStatsRequest)
    ensures r.filter == filter
  {
    DescribeIndexStatsRequest(filter)
  }

  function UpdateRequestFor(id: string, values: seq<real>, sparseValues: Option<SparseValues>,
                            metadata: Option<Metadata>, namespace: Namespace): (r: UpdateRequest)
    ensures r.id == id && r.values == values && r.sparseValues == sparseValues
    ensures r.setMetadata == metadata && r.namespace == namespace.name
  {
    UpdateRequest(id, values, sparseValues, metadata, namespace.name)
  }

  /** `query_by_id`: the stored vector `id` is the query; no vector is sent. */
  function QueryByIdRequest(id: string, topK: nat, namespace: Namespace, filter: Option<Metadata>,
                            includeValues: Option<bool>, includeMetadata: Option<bool>): (r: QueryRequest)
    ensures r.id == id && r.topK == topK && r.namespace == namespace.name && r.filter == filter
    ensures r.vector == [] && r.sparseVector.None? && r.queries == []
    ensures r.includeValues <==> includeValues == Some(true)
    ensures r.includeMetadata <==> includeMetadata == Some(true)
  {
    QueryRequest(id, topK, namespace.name, filter, includeValues.GetOr(false), includeMetadata.GetOr(false),
                 [], [], None)
  }

  /** `query_by_value`: the given vector is the query; no id is sent. */
  function QueryByValueRequest(vector: seq<real>, sparseVector: Option<SparseValues>, topK: nat, namespace: Namespace,
                               filter: Option<Metadata>, includeValues: Option<bool>,
                               includeMetadata: Option<bool>): (r: QueryRequest)
    ensures r.id == "" && r.vector == vector && r.sparseVector == sparseVector && r.queries == []
    ensures r.topK == topK && r.namespace == namespace.name && r.filter == filter
    ensures r.includeValues <==> includeValues == Some(true)
    ensures r.includeMetadata <==> includeMetadata == Some(true)
  {
    QueryRequest("", topK, namespace.name, filter, includeValues.GetOr(false), includeMetadata.GetOr(false),
                 [], vector, sparseVector)
  }

  /** `delete_by_id`: the ids, in the given namespace. */
  function DeleteByIdRequest(ids: seq<string>, namespace: Namespace): (r: DeleteRequest)
    ensures ScopeOf(r) == Some(TheseIds(ids)) && r.namespace == namespace.name
  {
    DeleteRequest(ids, false, namespace.name, None)
  }

  /** `delete_all`: every vector of the given namespace. */
  function DeleteAllRequest(namespace: Namespace): (r: DeleteRequest)
    ensures ScopeOf(r) == Some(EveryVector) && r.namespace == namespace.name
  {
    DeleteRequest([], true, namespace.name, None)
  }

  /** `delete_by_filter`: the vectors matching the filter, in the given namespace. */
  function DeleteByFilterRequest(filter: Metadata, namespace: Namespace): (r: DeleteRequest)
    ensures ScopeOf(r) == Some(MatchingFilter(filter)) && r.namespace == namespace.name
  {
    DeleteRequest([], false, namespace.name, Some(filter))
  }

  function FetchRequestFor(ids: seq<string>, namespace: Namespace): (r: FetchRequest)
    ensures r.ids == ids && r.namespace == namespace.name
  {
    FetchRequest(ids, namespace.name)
  }

  /** What a delete request asks for. */
  datatype DeleteScope = EveryVector | TheseIds(ids: seq<string>) | MatchingFilter(filter: Metadata)

  /** Reading a delete request back: its flag, id list and filter select one scope; a request
      mixing them selects none. */
  function ScopeOf(r: DeleteRequest): Option<DeleteScope> {
    if r.deleteAll then (if r.ids == [] && r.filter.None? then Some(EveryVector) else None)
    else if r.filter.None? then Some(TheseIds(r.ids))
    else if r.ids == [] then Some(MatchingFilter(r.filter.value))
    else None
  }

  /** A delete request with a scope is the one the matching method builds for it. */
  lemma DeleteScopeRoundTrip(r: DeleteRequest)
    requires ScopeOf(r).Some?
    ensures match ScopeOf(r).value
      case EveryVector => r == DeleteAllRequest(Namespace(r.namespace))
      case TheseIds(ids) => r == DeleteByIdRequest(ids, Namespace(r.namespace))
      case MatchingFilter(f) => r == DeleteByFilterRequest(f, Namespace(r.namespace))
  {
  }

  /** The two kinds of query are told apart by the vector: a query by id never sends one. */
  lemma QueryModesDiffer(id: string, topK: nat, namespace: Namespace, filter: Option<Metadata>,
                         includeValues: Option<bool>, includeMetadata: Option<bool>,
                         vector: seq<real>, sparseVector: Option<SparseValues>)
    requires vector != [] || id != ""
    ensures QueryByIdRequest(id, topK, namespace, filter, includeValues, includeMetadata) !=
            QueryByValueRequest(vector, sparseVector, topK, namespace, filter, includeValues, includeMetadata)
  {
  }
}
