/** Request construction of the older `create_serverless_index_req`
    (pinecone_sdk/src/control/create_index.rs). The metric and cloud arrive as strings; the
    code panics on a string it does not know, which the model returns as `Panic`. */
module CreateIndex {
  import opened Wrappers
  import opened Metrics
  import C = Control

  /** An abort of the program with this message. */
  datatype Panic = Panic(message: string)

  const InvalidMetricMessage: string := "Invalid metric"
  const InvalidCloudMessage: string := "Invalid cloud type"

  /** `CreateServerlessIndexRequest`, the caller's parameters. */
  datatype CreateServerlessIndexParams = CreateServerlessIndexParams(
    name: string,
    dimension: int,
    metric: Option<string>,
    cloud: Option<string>,
    region: string)

  /** This revision's create request: no deletion protection field. */
  datatype CreateIndexRequest = CreateIndexRequest(
    name: string,
    dimension: int,
    metric: Option<RequestMetric>,
    spec: Option<C.IndexSpec>)

  /** The wire name of a cloud. */
  function CloudName(c: C.Cloud): string {
    match c
    case Gcp => "gcp"
    case Aws => "aws"
    case Azure => "azure"
  }

  /** The metric string match; an absent metric stays absent. */
  function ParseMetric(metric: Option<string>): (r: Result<Option<RequestMetric>, Panic>)
    ensures metric.None? ==> r == Success(None)
    ensures metric.Some? && r.Success? ==> r.value.Some? && RequestMetricName(r.value.value) == metric.value
    ensures metric.Some? ==> (r.Failure? <==> metric.value !in {"cosine", "euclidean", "dotproduct"})
    ensures r.Failure? ==> r.error == Panic(InvalidMetricMessage)
  {
    match metric
    case None => Success(None)
    case Some(s) =>
      if s == "cosine" then Success(Some(RequestCosine))
      else if s == "euclidean" then Success(Some(RequestEuclidean))
      else if s == "dotproduct" then Success(Some(RequestDotproduct))
      else Failure(Panic(InvalidMetricMessage))
  }

  /** The cloud string match; an absent cloud is the default cloud. */
  function ParseCloud(cloud: Option<string>): (r: Result<C.Cloud, Panic>)
    ensures cloud.None? ==> r == Success(C.DefaultCloud)
    ensures cloud.Some? && r.Success? ==> CloudName(r.value) == cloud.value
    ensures cloud.Some? ==> (r.Failure? <==> cloud.value !in {"gcp", "aws", "azure"})
    ensures r.Failure? ==> r.error == Panic(InvalidCloudMessage)
  {
    match cloud
    case None => Success(C.DefaultCloud)
    case Some(s) =>
      if s == "gcp" then Success(C.Gcp)
      else if s == "aws" then Success(C.Aws)
      else if s == "azure" then Success(C.Azure)
      else Failure(Panic(InvalidCloudMessage))
  }

  /** `create_serverless_index_req`. The metric is matched before the cloud, so a request with
      both strings wrong panics with the metric message. */
  function CreateServerlessIndexReq(params: CreateServerlessIndexParams): (r: Result<CreateIndexRequest, Panic>)
    ensures r.Success? <==> ParseMetric(params.metric).Success? && ParseCloud(params.cloud).Success?
    ensures ParseMetric(params.metric).Failure? ==> r == Failure(Panic(InvalidMetricMessage))
    ensures r.Success? ==>
      && r.value.name == params.name && r.value.dimension == params.dimension
      && r.value.metric == ParseMetric(params.metric).value
      && r.value.spec == Some(C.IndexSpec(Some(C.ServerlessSpec(ParseCloud(params.cloud).value, params.region)), None))
  {
    var metric :- ParseMetric(params.metric);
    var cloud :- ParseCloud(params.cloud);
    var spec := C.IndexSpec(Some(C.ServerlessSpec(cloud, params.region)), None);
    Success(CreateIndexRequest(params.name, params.dimension, metric, Some(spec)))
  }

  /** Printing a metric or a cloud and matching the text back gives the same value. */
  lemma ParseNames(m: RequestMetric, c: C.Cloud)
    ensures ParseMetric(Some(RequestMetricName(m))) == Success(Some(m))
    ensures ParseCloud(Some(CloudName(c))) == Success(c)
  {
  }

  /** The request the crate's own example builds: cosine, default-named cloud gcp. */
  lemma CosineGcpExample(params: CreateServerlessIndexParams)
    requires params == CreateServerlessIndexParams("index_name", 10, Some("cosine"), Some("gcp"), "us-east-1")
    ensures var r := CreateServerlessIndexReq(params);
      && r.Success?
      && r.value.name == "index_name" && r.value.dimension == 10
      && r.value.metric == Some(RequestCosine)
      && r.value.spec == Some(C.IndexSpec(Some(C.ServerlessSpec(C.Gcp, "us-east-1")), None))
  {
  }
}
