/** The first data-plane client (pinecone_sdk/src/data.rs): an index is addressed by name, the
    host of a described index is rewritten to an `https` URL, and upsert always writes to the
    default namespace. */
module LegacyData {
  import opened Wrappers
  import opened Models
  import D = DataPlane

  const HttpsPrefix: string := "https://"
  const HttpsPort: string := ":443"

  /** The host rewrite of `get_index_host`: a host starting with `https://` is kept, any other
      host is wrapped in `https://` and `:443`. */
  function RewriteHost(host: string): (r: string)
    ensures HttpsPrefix <= r
    ensures HttpsPrefix <= host ==> r == host
    ensures !(HttpsPrefix <= host) ==> r == HttpsPrefix + host + HttpsPort
  {
    if HttpsPrefix <= host then host else HttpsPrefix + host + HttpsPort
  }

  /** `get_index_host`: the described index's host, rewritten; a failed describe call is
      passed on unchanged. */
  function GetIndexHost<E>(described: Result<string, E>): (r: Result<string, E>)
    ensures r.Failure? <==> described.Failure?
    ensures r.Failure? ==> r.error == described.error
    ensures r.Success? ==> r.value == RewriteHost(described.value)
  {
    var host :- described;
    Success(RewriteHost(host))
  }

  /** Rewriting an already rewritten host changes nothing. */
  lemma RewriteIdempotent(host: string)
    ensures RewriteHost(RewriteHost(host)) == RewriteHost(host)
  {
  }

  /** On a bare host (no scheme, no port) the rewrite agrees with the later normalisation. */
  lemma RewriteAgreesOnBareHost(host: string)
    requires !D.HasScheme(host) && !D.HasPort(host)
    ensures RewriteHost(host) == D.NormalizeEndpoint(host)
  {
    D.NormalizeEndpointShape(host);
    if HttpsPrefix <= host {
      assert host == HttpsPrefix + host[|HttpsPrefix|..];
      D.DefaultSchemeIsScheme(host[|HttpsPrefix|..]);
      assert false;
    }
  }

  /** A complete URL with another scheme, such as `http://h:80`, is kept by the later
      normalisation but wrapped again by this rewrite. */
  lemma RewriteDiffersOnOtherSchemes(host: string)
    requires D.HasScheme(host) && D.HasPort(host) && !(HttpsPrefix <= host)
    ensures RewriteHost(host) != D.NormalizeEndpoint(host)
  {
    assert |RewriteHost(host)| > |host|;
  }

  /** An index addressed by its name (the gRPC channel is not modelled). */
  datatype Index = Index(name: string)

  /** `PineconeClient::index`: connect by name and keep the name. */
  function IndexNamed(name: string, connect: string -> Result<(), string>): (r: Result<Index, string>)
    ensures r.Failure? <==> connect(name).Failure?
    ensures r.Failure? ==> r.error == connect(name).error
    ensures r.Success? ==> r.value.name == name
  {
    match connect(name)
    case Failure(e) => Failure(e)
    case Success(_) => Success(Index(name))
  }

  /** `Index::upsert`: the vectors as given, in the default namespace. */
  function UpsertRequestFor(vectors: seq<D.Vector>): (r: D.UpsertRequest)
    ensures r.vectors == vectors
    ensures r.namespace == DefaultNamespace.name
  {
    D.UpsertRequest(vectors, "")
  }

  /** The first upsert is the later one fixed to the default namespace. */
  lemma UpsertIsDefaultNamespaceUpsert(vectors: seq<D.Vector>)
    ensures UpsertRequestFor(vectors) == D.UpsertRequestFor(vectors, DefaultNamespace)
  {
  }
}
