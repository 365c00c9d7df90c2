/** The similarity metric and its conversions to and from the generated request
    and response enums (src/models/metric.rs). */
module Metrics {
  /** The SDK's own metric. */
  datatype Metric = Cosine | Euclidean | Dotproduct

  /** The metric of a create-index request (`create_index_request::Metric`). */
  datatype RequestMetric = RequestCosine | RequestEuclidean | RequestDotproduct

  /** The metric of a described index (`index_model::Metric`). */
  datatype ResponseMetric = ResponseCosine | ResponseEuclidean | ResponseDotproduct

  /** `Metric::default()` */
  const DefaultMetric: Metric := Cosine

  /** The lower-case name a metric has on the wire. */
  function MetricName(m: Metric): string {
    match m
    case Cosine => "cosine"
    case Euclidean => "euclidean"
    case Dotproduct => "dotproduct"
  }

  function RequestMetricName(m: RequestMetric): string {
    match m
    case RequestCosine => "cosine"
    case RequestEuclidean => "euclidean"
    case RequestDotproduct => "dotproduct"
  }

  function ResponseMetricName(m: ResponseMetric): string {
    match m
    case ResponseCosine => "cosine"
    case ResponseEuclidean => "euclidean"
    case ResponseDotproduct => "dotproduct"
  }

  /** `impl From<RequestMetric> for Metric` */
  function FromRequestMetric(m: RequestMetric): (r: Metric)
    ensures MetricName(r) == RequestMetricName(m)
  {
    match m
    case RequestCosine => Cosine
    case RequestEuclidean => Euclidean
    case RequestDotproduct => Dotproduct
  }

  /** `impl From<ResponseMetric> for Metric` */
  function FromResponseMetric(m: ResponseMetric): (r: Metric)
    ensures MetricName(r) == ResponseMetricName(m)
  {
    match m
    case ResponseCosine => Cosine
    case ResponseEuclidean => Euclidean
    case ResponseDotproduct => Dotproduct
  }

  /** `impl From<Metric> for RequestMetric` */
  function ToRequestMetric(m: Metric): (r: RequestMetric)
    ensures RequestMetricName(r) == MetricName(m)
  {
    match m
    case Cosine => RequestCosine
    case Euclidean => RequestEuclidean
    case Dotproduct => RequestDotproduct
  }

  /** `impl From<Metric> for ResponseMetric` */
  function ToResponseMetric(m: Metric): (r: ResponseMetric)
    ensures ResponseMetricName(r) == MetricName(m)
  {
    match m
    case Cosine => ResponseCosine
    case Euclidean => ResponseEuclidean
    case Dotproduct => ResponseDotproduct
  }

  /** Distinct metrics have distinct names, so a name-preserving conversion is determined. */
  lemma MetricNameInjective(a: Metric, b: Metric)
    ensures MetricName(a) == MetricName(b) ==> a == b
  {
  }

  /** Request metric to metric and back is the identity, and so is the other order. */
  lemma RequestRoundTrip(m: RequestMetric, n: Metric)
    ensures ToRequestMetric(FromRequestMetric(m)) == m
    ensures FromRequestMetric(ToRequestMetric(n)) == n
  {
  }

  /** Response metric to metric and back is the identity, and so is the other order. */
  lemma ResponseRoundTrip(m: ResponseMetric, n: Metric)
    ensures ToResponseMetric(FromResponseMetric(m)) == m
    ensures FromResponseMetric(ToResponseMetric(n)) == n
  {
  }

  /** The default metric is cosine on both wire forms. */
  lemma DefaultIsCosine()
    ensures MetricName(DefaultMetric) == "cosine"
    ensures ToRequestMetric(DefaultMetric) == RequestCosine
    ensures ToResponseMetric(DefaultMetric) == ResponseCosine
  {
  }
}
